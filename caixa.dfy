/**
 * The cash-flow widget (`CaixaStatsOverview`): total balance, total credits
 * and debits, today's inflows and outflows, four chart series, and the two
 * invalidation methods. Every figure is read through the cache under a key
 * of its own; the invalidation methods drop exactly the keys the widget reads.
 */
module CaixaStatsOverview {
  import opened Calendar
  import opened Text
  import opened Money
  import opened Ledger
  import opened Keys
  import opened Cache

  // ---- cache keys and TTLs (seconds) ----

  const SaldoTotalKey := Key(FluxoSaldoTotal, NoArg)
  const DebitosTotalKey := Key(FluxoDebitosTotal, NoArg)
  const CreditosTotalKey := Key(FluxoCreditosTotal, NoArg)
  const PorHoraKey := Key(FluxoHojePorHora, NoArg)

  /** "fluxo_caixa_hoje_entradas_{Y-m-d}" */
  function HojeEntradasKey(hoje: Date): Key {
    Key(FluxoHojeEntradas, DateArg(hoje))
  }

  /** "fluxo_caixa_hoje_saidas_{Y-m-d}" */
  function HojeSaidasKey(hoje: Date): Key {
    Key(FluxoHojeSaidas, DateArg(hoje))
  }

  /** "fluxo_caixa_historico_{dias}_dias" */
  function HistoricoKey(dias: int): Key {
    Key(FluxoHistorico, DiasArg(dias))
  }

  /** "fluxo_caixa_entradas_{dias}_dias" */
  function EntradasKey(dias: int): Key {
    Key(FluxoEntradas, DiasArg(dias))
  }

  /** "fluxo_caixa_saidas_{dias}_dias" */
  function SaidasKey(dias: int): Key {
    Key(FluxoSaidas, DiasArg(dias))
  }

  const TtlTotais := 15 * 60
  const TtlHoje := 5 * 60
  const TtlGraficos := 10 * 60
  const TtlPorHora := 5 * 60

  /** The number of days `getStats` asks each day-by-day chart for. */
  const DiasGrafico := 7

  // ---- queries over fluxo_caixas ----

  function Valor(): FluxoCaixa -> int {
    (r: FluxoCaixa) => r.valor
  }

  function Todos(): FluxoCaixa -> bool {
    (r: FluxoCaixa) => true
  }

  function Credito(): FluxoCaixa -> bool {
    (r: FluxoCaixa) => r.valor > 0
  }

  function Debito(): FluxoCaixa -> bool {
    (r: FluxoCaixa) => r.valor < 0
  }

  /** `whereDate('created_at', d)`. */
  function NaData(d: Date): FluxoCaixa -> bool {
    (r: FluxoCaixa) => r.createdAt.date == d
  }

  /** `HOUR(created_at) = h`. */
  function NaHora(h: int): FluxoCaixa -> bool {
    (r: FluxoCaixa) => r.createdAt.hour == h
  }

  /** Rows whose hour lies in [0, k). */
  function AntesDaHora(k: int): FluxoCaixa -> bool {
    (r: FluxoCaixa) => 0 <= r.createdAt.hour < k
  }

  function SaldoTotal(rows: seq<FluxoCaixa>): int {
    SumWhere(rows, Todos(), Valor())
  }

  function DebitosTotal(rows: seq<FluxoCaixa>): (s: int)
    ensures s <= 0
  {
    SumWhereNonPos(rows, Debito(), Valor());
    SumWhere(rows, Debito(), Valor())
  }

  function CreditosTotal(rows: seq<FluxoCaixa>): (s: int)
    ensures s >= 0
  {
    SumWhereNonNeg(rows, Credito(), Valor());
    SumWhere(rows, Credito(), Valor())
  }

  function EntradasNoDia(rows: seq<FluxoCaixa>, d: Date): (s: int)
    ensures s >= 0
  {
    SumWhereNonNeg(rows, And(Credito(), NaData(d)), Valor());
    SumWhere(rows, And(Credito(), NaData(d)), Valor())
  }

  function SaidasNoDia(rows: seq<FluxoCaixa>, d: Date): (s: int)
    ensures s <= 0
  {
    SumWhereNonPos(rows, And(Debito(), NaData(d)), Valor());
    SumWhere(rows, And(Debito(), NaData(d)), Valor())
  }

  function SaldoNoDia(rows: seq<FluxoCaixa>, d: Date): int {
    SumWhere(rows, NaData(d), Valor())
  }

  function SaldoNaHora(rows: seq<FluxoCaixa>, d: Date, h: int): int {
    SumWhere(rows, And(NaData(d), NaHora(h)), Valor())
  }

  /** The balance is credits plus debits: rows of value 0 add nothing to either side. */
  lemma SaldoTotalSplit(rows: seq<FluxoCaixa>)
    ensures SaldoTotal(rows) == CreditosTotal(rows) + DebitosTotal(rows)
  {
    SumWhereLinear(rows, Todos(), Valor(), Credito(), Valor(), Debito(), Valor());
  }

  /** A day's balance is its inflows plus its (negative) outflows. */
  lemma SaldoNoDiaSplit(rows: seq<FluxoCaixa>, d: Date)
    ensures SaldoNoDia(rows, d) == EntradasNoDia(rows, d) + SaidasNoDia(rows, d)
  {
    SumWhereLinear(rows, NaData(d), Valor(), And(Credito(), NaData(d)), Valor(), And(Debito(), NaData(d)), Valor());
  }

  /** A ledger with no movement on day d shows 0 for that day's totals. */
  lemma SemMovimentoNoDia(rows: seq<FluxoCaixa>, d: Date)
    requires forall i | 0 <= i < |rows| :: rows[i].createdAt.date != d
    ensures SaldoNoDia(rows, d) == 0 && EntradasNoDia(rows, d) == 0 && SaidasNoDia(rows, d) == 0
  {
    SumWhereNone(rows, NaData(d), Valor());
    SumWhereNone(rows, And(Credito(), NaData(d)), Valor());
    SumWhereNone(rows, And(Debito(), NaData(d)), Valor());
  }

  // ---- chart series ----

  /** `now->subDays(dias - 1)`: the first day of an N-day series. */
  function Inicio(hoje: Date, dias: int): Date
    requires ValidDate(hoje)
  {
    ShiftDays(hoje, -(dias - 1))
  }

  /** Day of point i of an N-day series: `dataInicio->addDays(i)`. */
  function DiaDoPonto(hoje: Date, dias: int, i: int): Date
    requires ValidDate(hoje)
  {
    ShiftDays(Inicio(hoje, dias), i)
  }

  function Historico(rows: seq<FluxoCaixa>, hoje: Date, dias: int): seq<int>
    requires ValidDate(hoje)
  {
    seq(Pontos(dias), i => SaldoNoDia(rows, DiaDoPonto(hoje, dias, i)))
  }

  function Entradas(rows: seq<FluxoCaixa>, hoje: Date, dias: int): seq<int>
    requires ValidDate(hoje)
  {
    seq(Pontos(dias), i => EntradasNoDia(rows, DiaDoPonto(hoje, dias, i)))
  }

  /** Outflows per day, as magnitudes: `abs` of the sum of the negative rows. */
  function Saidas(rows: seq<FluxoCaixa>, hoje: Date, dias: int): seq<int>
    requires ValidDate(hoje)
  {
    seq(Pontos(dias), i => Abs(SaidasNoDia(rows, DiaDoPonto(hoje, dias, i))))
  }

  /** Today's balance hour by hour. */
  function PorHora(rows: seq<FluxoCaixa>, hoje: Date): seq<int> {
    seq(24, h => SaldoNaHora(rows, hoje, h))
  }

  /** Point i of an N-day series lies dias - 1 - i days before today: oldest first. */
  lemma DiaDoPontoNumero(hoje: Date, dias: int, i: int)
    requires ValidDate(hoje)
    ensures DayNumber(DiaDoPonto(hoje, dias, i)) == DayNumber(hoje) - (dias - 1 - i)
  {
  }

  /** Consecutive points are consecutive calendar days. */
  lemma DiaDoPontoSeguinte(hoje: Date, dias: int, i: int)
    requires ValidDate(hoje)
    ensures DiaDoPonto(hoje, dias, i + 1) == NextDay(DiaDoPonto(hoje, dias, i))
  {
    ShiftNext(Inicio(hoje, dias), i);
  }

  /** The last point of an N-day series is today. */
  lemma DiaDoPontoUltimo(hoje: Date, dias: int)
    requires ValidDate(hoje)
    ensures DiaDoPonto(hoje, dias, dias - 1) == hoje
  {
    ShiftAdd(hoje, -(dias - 1), dias - 1);
  }

  /** Every chart point is the balance of its day split into inflows and outflow magnitude. */
  lemma HistoricoEntradasSaidas(rows: seq<FluxoCaixa>, hoje: Date, dias: int)
    requires ValidDate(hoje)
    ensures |Historico(rows, hoje, dias)| == |Entradas(rows, hoje, dias)| == |Saidas(rows, hoje, dias)| == Pontos(dias)
    ensures forall i | 0 <= i < Pontos(dias) ::
      Historico(rows, hoje, dias)[i] == Entradas(rows, hoje, dias)[i] - Saidas(rows, hoje, dias)[i]
    ensures forall i | 0 <= i < Pontos(dias) :: Entradas(rows, hoje, dias)[i] >= 0 && Saidas(rows, hoje, dias)[i] >= 0
  {
    forall i | 0 <= i < Pontos(dias)
      ensures Historico(rows, hoje, dias)[i] == Entradas(rows, hoje, dias)[i] - Saidas(rows, hoje, dias)[i]
    {
      SaldoNoDiaSplit(rows, DiaDoPonto(hoje, dias, i));
    }
  }

  /** A timestamp with an hour of the day. */
  predicate HorasValidas(rows: seq<FluxoCaixa>) {
    forall i | 0 <= i < |rows| :: 0 <= rows[i].createdAt.hour < 24
  }

  lemma {:induction false} PorHoraPrefixo(rows: seq<FluxoCaixa>, hoje: Date, k: nat)
    requires k <= 24
    ensures SeriesTotal(PorHora(rows, hoje)[..k]) == SumWhere(rows, And(NaData(hoje), AntesDaHora(k)), Valor())
  {
    var s := PorHora(rows, hoje);
    if k == 0 {
      SumWhereNone(rows, And(NaData(hoje), AntesDaHora(0)), Valor());
    } else {
      PorHoraPrefixo(rows, hoje, k - 1);
      assert s[..k][..k - 1] == s[..k - 1];
      SumWhereLinear(rows, And(NaData(hoje), AntesDaHora(k)), Valor(),
        And(NaData(hoje), AntesDaHora(k - 1)), Valor(), And(NaData(hoje), NaHora(k - 1)), Valor());
    }
  }

  /** The 24 hourly points add up to the day's balance. */
  lemma PorHoraTotal(rows: seq<FluxoCaixa>, hoje: Date)
    requires HorasValidas(rows)
    ensures |PorHora(rows, hoje)| == 24
    ensures SeriesTotal(PorHora(rows, hoje)) == SaldoNoDia(rows, hoje)
  {
    PorHoraPrefixo(rows, hoje, 24);
    assert PorHora(rows, hoje)[..24] == PorHora(rows, hoje);
    SumWhereSame(rows, And(NaData(hoje), AntesDaHora(24)), Valor(), NaData(hoje), Valor());
  }

  /** The `for ($i = 0; $i < $dias; $i++)` loop of `gerarDadosHistorico`. */
  method CalcularHistorico(rows: seq<FluxoCaixa>, hoje: Date, dias: int) returns (dados: seq<int>)
    requires ValidDate(hoje)
    ensures dados == Historico(rows, hoje, dias)
  {
    dados := [];
    ghost var serie := Historico(rows, hoje, dias);
    var inicio := Inicio(hoje, dias);
    var i := 0;
    while i < dias
      invariant 0 <= i <= Pontos(dias)
      invariant dados == serie[..i]
    {
      var data := ShiftDays(inicio, i);
      PrefixStep(serie, i, SaldoNoDia(rows, data));
      dados := dados + [SaldoNoDia(rows, data)];
      i := i + 1;
    }
  }

  /** The loop of `gerarDadosEntradas`. */
  method CalcularEntradas(rows: seq<FluxoCaixa>, hoje: Date, dias: int) returns (dados: seq<int>)
    requires ValidDate(hoje)
    ensures dados == Entradas(rows, hoje, dias)
  {
    dados := [];
    ghost var serie := Entradas(rows, hoje, dias);
    var inicio := Inicio(hoje, dias);
    var i := 0;
    while i < dias
      invariant 0 <= i <= Pontos(dias)
      invariant dados == serie[..i]
    {
      var data := ShiftDays(inicio, i);
      PrefixStep(serie, i, EntradasNoDia(rows, data));
      dados := dados + [EntradasNoDia(rows, data)];
      i := i + 1;
    }
  }

  /** The loop of `gerarDadosSaidas`. */
  method CalcularSaidas(rows: seq<FluxoCaixa>, hoje: Date, dias: int) returns (dados: seq<int>)
    requires ValidDate(hoje)
    ensures dados == Saidas(rows, hoje, dias)
  {
    dados := [];
    ghost var serie := Saidas(rows, hoje, dias);
    var inicio := Inicio(hoje, dias);
    var i := 0;
    while i < dias
      invariant 0 <= i <= Pontos(dias)
      invariant dados == serie[..i]
    {
      var data := ShiftDays(inicio, i);
      PrefixStep(serie, i, Abs(SaidasNoDia(rows, data)));
      dados := dados + [Abs(SaidasNoDia(rows, data))];
      i := i + 1;
    }
  }

  /** The `for ($hora = 0; $hora < 24; $hora++)` loop of `gerarDadosDia`. */
  method CalcularPorHora(rows: seq<FluxoCaixa>, hoje: Date) returns (dados: seq<int>)
    ensures dados == PorHora(rows, hoje)
  {
    dados := [];
    var hora := 0;
    while hora < 24
      invariant 0 <= hora <= 24
      invariant dados == PorHora(rows, hoje)[..hora]
    {
      dados := dados + [SaldoNaHora(rows, hoje, hora)];
      hora := hora + 1;
    }
  }

  // ---- cache-backed chart helpers ----

  method GerarDadosHistorico(store: Store, db: Db, now: DateTime, dias: int) returns (dados: seq<int>)
    requires ValidDateTime(now)
    requires Holds(store.entries, HistoricoKey(dias), SeriesKind)
    modifies store
    ensures var computed := Series(Historico(db.fluxoCaixa, now.date, dias));
      dados == Recall(old(store.entries), HistoricoKey(dias), Stamp(now), computed).points
      && store.entries == Refreshed(old(store.entries), HistoricoKey(dias), Stamp(now), TtlGraficos, computed)
  {
    var key := HistoricoKey(dias);
    var hit := store.Get(key, Stamp(now));
    if hit.Some? {
      dados := hit.value.points;
    } else {
      dados := CalcularHistorico(db.fluxoCaixa, now.date, dias);
      store.Put(key, Series(dados), Stamp(now) + TtlGraficos);
    }
  }

  method GerarDadosEntradas(store: Store, db: Db, now: DateTime, dias: int) returns (dados: seq<int>)
    requires ValidDateTime(now)
    requires Holds(store.entries, EntradasKey(dias), SeriesKind)
    modifies store
    ensures var computed := Series(Entradas(db.fluxoCaixa, now.date, dias));
      dados == Recall(old(store.entries), EntradasKey(dias), Stamp(now), computed).points
      && store.entries == Refreshed(old(store.entries), EntradasKey(dias), Stamp(now), TtlGraficos, computed)
  {
    var key := EntradasKey(dias);
    var hit := store.Get(key, Stamp(now));
    if hit.Some? {
      dados := hit.value.points;
    } else {
      dados := CalcularEntradas(db.fluxoCaixa, now.date, dias);
      store.Put(key, Series(dados), Stamp(now) + TtlGraficos);
    }
  }

  method GerarDadosSaidas(store: Store, db: Db, now: DateTime, dias: int) returns (dados: seq<int>)
    requires ValidDateTime(now)
    requires Holds(store.entries, SaidasKey(dias), SeriesKind)
    modifies store
    ensures var computed := Series(Saidas(db.fluxoCaixa, now.date, dias));
      dados == Recall(old(store.entries), SaidasKey(dias), Stamp(now), computed).points
      && store.entries == Refreshed(old(store.entries), SaidasKey(dias), Stamp(now), TtlGraficos, computed)
  {
    var key := SaidasKey(dias);
    var hit := store.Get(key, Stamp(now));
    if hit.Some? {
      dados := hit.value.points;
    } else {
      dados := CalcularSaidas(db.fluxoCaixa, now.date, dias);
      store.Put(key, Series(dados), Stamp(now) + TtlGraficos);
    }
  }

  /** The hourly chart; its key carries no date, so a value stored late one day is still served just after midnight. */
  method GerarDadosDia(store: Store, db: Db, now: DateTime) returns (dados: seq<int>)
    requires ValidDateTime(now)
    requires Holds(store.entries, PorHoraKey, SeriesKind)
    modifies store
    ensures var computed := Series(PorHora(db.fluxoCaixa, now.date));
      dados == Recall(old(store.entries), PorHoraKey, Stamp(now), computed).points
      && store.entries == Refreshed(old(store.entries), PorHoraKey, Stamp(now), TtlPorHora, computed)
  {
    var hit := store.Get(PorHoraKey, Stamp(now));
    if hit.Some? {
      dados := hit.value.points;
    } else {
      dados := CalcularPorHora(db.fluxoCaixa, now.date);
      store.Put(PorHoraKey, Series(dados), Stamp(now) + TtlPorHora);
    }
  }

  /** A day's hourly chart stored at 23:59 is what a read at 00:01 the next day returns. */
  lemma PorHoraSemData(m: Entries, ontem: DateTime, hoje: DateTime, rowsOntem: seq<FluxoCaixa>, rowsHoje: seq<FluxoCaixa>)
    requires ValidDateTime(ontem) && ValidDateTime(hoje) && hoje.date == NextDay(ontem.date)
    requires !Live(m, PorHoraKey, Stamp(ontem))
    requires Stamp(ontem) <= Stamp(hoje) < Stamp(ontem) + TtlPorHora
    ensures Recall(Refreshed(m, PorHoraKey, Stamp(ontem), TtlPorHora, Series(PorHora(rowsOntem, ontem.date))),
                   PorHoraKey, Stamp(hoje), Series(PorHora(rowsHoje, hoje.date)))
            == Series(PorHora(rowsOntem, ontem.date))
  {
  }

  // ---- getStats ----

  /** The figures `getStats` shows, before presentation. */
  datatype Painel = Painel(
    saldoTotal: int, debitosTotal: int, creditosTotal: int,
    entradasHoje: int, saidasHoje: int, saldoHoje: int,
    historico: seq<int>, entradas: seq<int>, saidas: seq<int>, porHora: seq<int>)

  /** The figures as freshly computed from the table, with no cache in between. */
  function Fresco(rows: seq<FluxoCaixa>, hoje: Date): Painel
    requires ValidDate(hoje)
  {
    var entradas, saidas := EntradasNoDia(rows, hoje), SaidasNoDia(rows, hoje);
    Painel(SaldoTotal(rows), DebitosTotal(rows), CreditosTotal(rows), entradas, saidas, entradas + saidas,
           Historico(rows, hoje, DiasGrafico), Entradas(rows, hoje, DiasGrafico),
           Saidas(rows, hoje, DiasGrafico), PorHora(rows, hoje))
  }

  /** The keys of the five totals. */
  function TotaisKeys(hoje: Date): set<Key> {
    {SaldoTotalKey, DebitosTotalKey, CreditosTotalKey, HojeEntradasKey(hoje), HojeSaidasKey(hoje)}
  }

  /** The keys of the four charts, as `getStats` requests them. */
  function GraficosKeys(): set<Key> {
    {HistoricoKey(DiasGrafico), EntradasKey(DiasGrafico), SaidasKey(DiasGrafico), PorHoraKey}
  }

  /** Every key `getStats` reads on a given day. */
  function ReadKeys(hoje: Date): set<Key> {
    TotaisKeys(hoje) + GraficosKeys()
  }

  /** The chart keys hold, if anything, series. */
  predicate GraficosKinds(m: Entries) {
    && Holds(m, HistoricoKey(DiasGrafico), SeriesKind) && Holds(m, EntradasKey(DiasGrafico), SeriesKind)
    && Holds(m, SaidasKey(DiasGrafico), SeriesKind) && Holds(m, PorHoraKey, SeriesKind)
  }

  /** Each key `getStats` reads holds, if anything, a value of the kind `getStats` stores there. */
  predicate StatsKinds(m: Entries, hoje: Date) {
    && Holds(m, SaldoTotalKey, AmountKind) && Holds(m, DebitosTotalKey, AmountKind)
    && Holds(m, CreditosTotalKey, AmountKind) && Holds(m, HojeEntradasKey(hoje), AmountKind)
    && Holds(m, HojeSaidasKey(hoje), AmountKind)
    && GraficosKinds(m)
  }

  /** What `getStats` shows when the cache holds m at `now`: each figure is the cached one if live, else fresh. */
  function Lido(m: Entries, rows: seq<FluxoCaixa>, now: DateTime): Painel
    requires ValidDateTime(now) && StatsKinds(m, now.date)
  {
    var hoje, t := now.date, Stamp(now);
    var f := Fresco(rows, hoje);
    var entradas := Recall(m, HojeEntradasKey(hoje), t, Amount(f.entradasHoje)).cents;
    var saidas := Recall(m, HojeSaidasKey(hoje), t, Amount(f.saidasHoje)).cents;
    Painel(
      Recall(m, SaldoTotalKey, t, Amount(f.saldoTotal)).cents,
      Recall(m, DebitosTotalKey, t, Amount(f.debitosTotal)).cents,
      Recall(m, CreditosTotalKey, t, Amount(f.creditosTotal)).cents,
      entradas, saidas, entradas + saidas,
      Recall(m, HistoricoKey(DiasGrafico), t, Series(f.historico)).points,
      Recall(m, EntradasKey(DiasGrafico), t, Series(f.entradas)).points,
      Recall(m, SaidasKey(DiasGrafico), t, Series(f.saidas)).points,
      Recall(m, PorHoraKey, t, Series(f.porHora)).points)
  }

  /** The five `Cache::remember` calls for the totals, in source order. */
  function TotaisRequests(rows: seq<FluxoCaixa>, hoje: Date): seq<Request>
    requires ValidDate(hoje)
  {
    var f := Fresco(rows, hoje);
    [Request(SaldoTotalKey, TtlTotais, Amount(f.saldoTotal)),
     Request(DebitosTotalKey, TtlTotais, Amount(f.debitosTotal)),
     Request(CreditosTotalKey, TtlTotais, Amount(f.creditosTotal)),
     Request(HojeEntradasKey(hoje), TtlHoje, Amount(f.entradasHoje)),
     Request(HojeSaidasKey(hoje), TtlHoje, Amount(f.saidasHoje))]
  }

  /** The four `Cache::remember` calls for the charts, in source order. */
  function GraficosRequests(rows: seq<FluxoCaixa>, hoje: Date): seq<Request>
    requires ValidDate(hoje)
  {
    var f := Fresco(rows, hoje);
    [Request(HistoricoKey(DiasGrafico), TtlGraficos, Series(f.historico)),
     Request(EntradasKey(DiasGrafico), TtlGraficos, Series(f.entradas)),
     Request(SaidasKey(DiasGrafico), TtlGraficos, Series(f.saidas)),
     Request(PorHoraKey, TtlPorHora, Series(f.porHora))]
  }

  /** Every `Cache::remember` call of one `getStats`. */
  function StatsRequests(rows: seq<FluxoCaixa>, hoje: Date): seq<Request>
    requires ValidDate(hoje)
  {
    TotaisRequests(rows, hoje) + GraficosRequests(rows, hoje)
  }

  /** The requests for the totals, one `remember` after another, and the keys they touch. */
  lemma TotaisEmSequencia(m: Entries, rows: seq<FluxoCaixa>, hoje: Date, t: int)
    requires ValidDate(hoje)
    ensures var r := TotaisRequests(rows, hoje);
      RememberAll(m, r, t)
      == Refreshed(Refreshed(Refreshed(Refreshed(Refreshed(m,
           r[0].key, t, r[0].ttl, r[0].computed), r[1].key, t, r[1].ttl, r[1].computed),
           r[2].key, t, r[2].ttl, r[2].computed), r[3].key, t, r[3].ttl, r[3].computed),
           r[4].key, t, r[4].ttl, r[4].computed)
    ensures RequestKeys(TotaisRequests(rows, hoje)) == TotaisKeys(hoje)
  {
    RememberAllFive(m, TotaisRequests(rows, hoje), t);
  }

  /** The requests for the charts, one `remember` after another, and the keys they touch. */
  lemma GraficosEmSequencia(m: Entries, rows: seq<FluxoCaixa>, hoje: Date, t: int)
    requires ValidDate(hoje)
    ensures var r := GraficosRequests(rows, hoje);
      RememberAll(m, r, t)
      == Refreshed(Refreshed(Refreshed(Refreshed(m,
           r[0].key, t, r[0].ttl, r[0].computed), r[1].key, t, r[1].ttl, r[1].computed),
           r[2].key, t, r[2].ttl, r[2].computed), r[3].key, t, r[3].ttl, r[3].computed)
    ensures RequestKeys(GraficosRequests(rows, hoje)) == GraficosKeys()
  {
    var r := GraficosRequests(rows, hoje);
    RememberAllStep(m, r, 1, t);
    RememberAllStep(m, r, 2, t);
    RememberAllStep(m, r, 3, t);
    RememberAllStep(m, r, 4, t);
    assert r[..0] == [] && r[..4] == r;
  }

  /** Reading the totals leaves the chart keys as they were. */
  lemma TotaisPreservamGraficos(m: Entries, rows: seq<FluxoCaixa>, hoje: Date, t: int)
    requires ValidDate(hoje)
    ensures var m1 := RememberAll(m, TotaisRequests(rows, hoje), t);
      forall k | k in GraficosKeys() :: (k in m1 <==> k in m) && (k in m1 ==> m1[k] == m[k])
  {
    var r := TotaisRequests(rows, hoje);
    TotaisEmSequencia(m, rows, hoje, t);
    forall k | k in GraficosKeys()
      ensures var m1 := RememberAll(m, r, t); (k in m1 <==> k in m) && (k in m1 ==> m1[k] == m[k])
    {
      RememberAllUntouched(m, r, t, k);
    }
  }

  /** The five totals of `getStats`, each through `Cache::remember` under its own key. */
  method BuscarTotais(store: Store, db: Db, now: DateTime)
    returns (saldoTotal: int, debitosTotal: int, creditosTotal: int, entradasHoje: int, saidasHoje: int)
    requires ValidDateTime(now) && StatsKinds(store.entries, now.date)
    modifies store
    ensures var p := Lido(old(store.entries), db.fluxoCaixa, now);
      && saldoTotal == p.saldoTotal && debitosTotal == p.debitosTotal && creditosTotal == p.creditosTotal
      && entradasHoje == p.entradasHoje && saidasHoje == p.saidasHoje
    ensures store.entries == RememberAll(old(store.entries), TotaisRequests(db.fluxoCaixa, now.date), Stamp(now))
  {
    var t, rows, hoje := Stamp(now), db.fluxoCaixa, now.date;
    TotaisEmSequencia(store.entries, rows, hoje, t);
    saldoTotal := RememberAmount(store, SaldoTotalKey, TtlTotais, t, SaldoTotal(rows));
    debitosTotal := RememberAmount(store, DebitosTotalKey, TtlTotais, t, DebitosTotal(rows));
    creditosTotal := RememberAmount(store, CreditosTotalKey, TtlTotais, t, CreditosTotal(rows));
    entradasHoje := RememberAmount(store, HojeEntradasKey(hoje), TtlHoje, t, EntradasNoDia(rows, hoje));
    saidasHoje := RememberAmount(store, HojeSaidasKey(hoje), TtlHoje, t, SaidasNoDia(rows, hoje));
  }

  /** The four charts of `getStats`, each through `Cache::remember` under its own key. */
  method BuscarGraficos(store: Store, db: Db, now: DateTime)
    returns (historico: seq<int>, entradas: seq<int>, saidas: seq<int>, porHora: seq<int>)
    requires ValidDateTime(now) && GraficosKinds(store.entries)
    modifies store
    ensures var m, t, f := old(store.entries), Stamp(now), Fresco(db.fluxoCaixa, now.date);
      && historico == Recall(m, HistoricoKey(DiasGrafico), t, Series(f.historico)).points
      && entradas == Recall(m, EntradasKey(DiasGrafico), t, Series(f.entradas)).points
      && saidas == Recall(m, SaidasKey(DiasGrafico), t, Series(f.saidas)).points
      && porHora == Recall(m, PorHoraKey, t, Series(f.porHora)).points
    ensures store.entries == RememberAll(old(store.entries), GraficosRequests(db.fluxoCaixa, now.date), Stamp(now))
  {
    GraficosEmSequencia(store.entries, db.fluxoCaixa, now.date, Stamp(now));
    historico := GerarDadosHistorico(store, db, now, DiasGrafico);
    entradas := GerarDadosEntradas(store, db, now, DiasGrafico);
    saidas := GerarDadosSaidas(store, db, now, DiasGrafico);
    porHora := GerarDadosDia(store, db, now);
  }

  /** `getStats`: five cached totals, today's balance, and the four cached charts. */
  method GetStats(store: Store, db: Db, now: DateTime) returns (p: Painel)
    requires ValidDateTime(now) && StatsKinds(store.entries, now.date)
    modifies store
    ensures p == Lido(old(store.entries), db.fluxoCaixa, now)
    ensures store.entries == RememberAll(old(store.entries), StatsRequests(db.fluxoCaixa, now.date), Stamp(now))
  {
    ghost var m0 := store.entries;
    TotaisPreservamGraficos(m0, db.fluxoCaixa, now.date, Stamp(now));
    var saldoTotal, debitosTotal, creditosTotal, entradasHoje, saidasHoje := BuscarTotais(store, db, now);
    var saldoHoje := entradasHoje + saidasHoje;
    var historico, entradas, saidas, porHora := BuscarGraficos(store, db, now);
    RememberAllConcat(m0, TotaisRequests(db.fluxoCaixa, now.date), GraficosRequests(db.fluxoCaixa, now.date), Stamp(now));
    p := Painel(saldoTotal, debitosTotal, creditosTotal, entradasHoje, saidasHoje, saldoHoje,
                historico, entradas, saidas, porHora);
  }

  /** After `getStats`, only the keys it reads have changed, and each of them is live. */
  lemma StatsEstado(m: Entries, rows: seq<FluxoCaixa>, hoje: Date, t: int)
    requires ValidDate(hoje)
    ensures ChangedOnly(m, RememberAll(m, StatsRequests(rows, hoje), t), ReadKeys(hoje))
    ensures AllLive(RememberAll(m, StatsRequests(rows, hoje), t), ReadKeys(hoje), t)
  {
    var a, b := TotaisRequests(rows, hoje), GraficosRequests(rows, hoje);
    RememberAllConcat(m, a, b, t);
    TotaisEmSequencia(m, rows, hoje, t);
    GraficosEmSequencia(m, rows, hoje, t);
    assert PositiveTtls(a + b) by {
      forall i | 0 <= i < |a + b| ensures (a + b)[i].ttl > 0 {
        if i < |a| {
          assert (a + b)[i] == a[i];
        } else {
          assert (a + b)[i] == b[i - |a|];
        }
      }
    }
    RememberAllFacts(m, a + b, t);
  }

  /** With nothing cached, `getStats` shows the fresh figures. */
  lemma LidoSemCache(m: Entries, rows: seq<FluxoCaixa>, now: DateTime)
    requires ValidDateTime(now)
    requires forall k | k in ReadKeys(now.date) :: k !in m
    ensures Lido(m, rows, now) == Fresco(rows, now.date)
  {
    assert SaldoTotalKey in ReadKeys(now.date) && DebitosTotalKey in ReadKeys(now.date);
    assert CreditosTotalKey in ReadKeys(now.date) && HojeEntradasKey(now.date) in ReadKeys(now.date);
    assert HojeSaidasKey(now.date) in ReadKeys(now.date) && PorHoraKey in ReadKeys(now.date);
    assert HistoricoKey(DiasGrafico) in ReadKeys(now.date) && EntradasKey(DiasGrafico) in ReadKeys(now.date);
    assert SaidasKey(DiasGrafico) in ReadKeys(now.date);
  }

  /** With neither of today's inflow and outflow keys live, the balance shown for today is the day's signed sum. */
  lemma SaldoHojeFresco(m: Entries, rows: seq<FluxoCaixa>, now: DateTime)
    requires ValidDateTime(now) && StatsKinds(m, now.date)
    requires !Live(m, HojeEntradasKey(now.date), Stamp(now)) && !Live(m, HojeSaidasKey(now.date), Stamp(now))
    ensures Lido(m, rows, now).saldoHoje == SaldoNoDia(rows, now.date)
  {
    SaldoNoDiaSplit(rows, now.date);
  }

  /**
   * Today's balance is not cached itself but added from two cached reads: with
   * only the inflows live, it is the cached inflows plus fresh outflows, and it
   * matches the day's signed sum exactly when the cached inflows are still current.
   */
  lemma SaldoHojeMisto(m: Entries, rows: seq<FluxoCaixa>, now: DateTime)
    requires ValidDateTime(now) && StatsKinds(m, now.date)
    requires Live(m, HojeEntradasKey(now.date), Stamp(now)) && !Live(m, HojeSaidasKey(now.date), Stamp(now))
    ensures Lido(m, rows, now).saldoHoje == m[HojeEntradasKey(now.date)].value.cents + SaidasNoDia(rows, now.date)
    ensures Lido(m, rows, now).saldoHoje == SaldoNoDia(rows, now.date)
            <==> m[HojeEntradasKey(now.date)].value.cents == EntradasNoDia(rows, now.date)
  {
    SaldoNoDiaSplit(rows, now.date);
  }

  /** The fresh figures agree with each other: the balance splits into credits and debits, today's balance into inflows and outflows, and the hourly chart adds up to today's balance. */
  lemma FrescoCoerente(rows: seq<FluxoCaixa>, hoje: Date)
    requires ValidDate(hoje) && HorasValidas(rows)
    ensures var f := Fresco(rows, hoje);
      && f.saldoTotal == f.creditosTotal + f.debitosTotal
      && f.debitosTotal <= 0 <= f.creditosTotal
      && f.saldoHoje == SaldoNoDia(rows, hoje)
      && f.entradasHoje >= 0 && f.saidasHoje <= 0
      && |f.porHora| == 24 && SeriesTotal(f.porHora) == f.saldoHoje
      && |f.historico| == |f.entradas| == |f.saidas| == DiasGrafico
  {
    SaldoTotalSplit(rows);
    SaldoNoDiaSplit(rows, hoje);
    PorHoraTotal(rows, hoje);
  }

  /** The four headline values as displayed: balance, credits, debit magnitude, today's balance. */
  function Exibicao(p: Painel): seq<string> {
    [FormatarValor(p.saldoTotal, true), FormatarValor(p.creditosTotal, true),
     FormatarValor(Abs(p.debitosTotal), true), FormatarValor(p.saldoHoje, true)]
  }

  /** The displayed values carry the figures exactly; debits are shown as a magnitude. */
  lemma ExibicaoFiel(p: Painel)
    requires p.debitosTotal <= 0
    ensures |Exibicao(p)| == 4
    ensures ReadValor(Exibicao(p)[0]) == p.saldoTotal && ReadValor(Exibicao(p)[1]) == p.creditosTotal
    ensures ReadValor(Exibicao(p)[2]) == -p.debitosTotal && ReadValor(Exibicao(p)[3]) == p.saldoHoje
  {
    FormatarValorRoundTrip(p.saldoTotal, true);
    FormatarValorRoundTrip(p.creditosTotal, true);
    FormatarValorRoundTrip(Abs(p.debitosTotal), true);
    FormatarValorRoundTrip(p.saldoHoje, true);
  }

  // ---- invalidation ----

  /** The chart keys the invalidation methods spell out literally are the ones `getStats` uses. */
  lemma GraficosKeysRender()
    ensures Render(HistoricoKey(DiasGrafico)) == "fluxo_caixa_historico_7_dias"
    ensures Render(EntradasKey(DiasGrafico)) == "fluxo_caixa_entradas_7_dias"
    ensures Render(SaidasKey(DiasGrafico)) == "fluxo_caixa_saidas_7_dias"
  {
    assert IntToString(7) == "7" by {
      assert NatToString(7) == [DigitChar(7)];
    }
  }

  /** `clearCache`: forgets the nine keys in the order the source lists them. */
  method ClearCache(store: Store, now: DateTime)
    modifies store
    ensures store.entries == old(store.entries) - ReadKeys(now.date)
  {
    var today := now.date;
    ghost var m0, gone: set<Key> := store.entries, {};
    store.Forget(SaldoTotalKey); ForgetStep(m0, gone, SaldoTotalKey);
    gone := gone + {SaldoTotalKey}; assert store.entries == m0 - gone;
    store.Forget(DebitosTotalKey); ForgetStep(m0, gone, DebitosTotalKey);
    gone := gone + {DebitosTotalKey}; assert store.entries == m0 - gone;
    store.Forget(CreditosTotalKey); ForgetStep(m0, gone, CreditosTotalKey);
    gone := gone + {CreditosTotalKey}; assert store.entries == m0 - gone;
    store.Forget(HojeEntradasKey(today)); ForgetStep(m0, gone, HojeEntradasKey(today));
    gone := gone + {HojeEntradasKey(today)}; assert store.entries == m0 - gone;
    store.Forget(HojeSaidasKey(today)); ForgetStep(m0, gone, HojeSaidasKey(today));
    gone := gone + {HojeSaidasKey(today)}; assert store.entries == m0 - gone;
    store.Forget(HistoricoKey(7)); ForgetStep(m0, gone, HistoricoKey(7));
    gone := gone + {HistoricoKey(7)}; assert store.entries == m0 - gone;
    store.Forget(EntradasKey(7)); ForgetStep(m0, gone, EntradasKey(7));
    gone := gone + {EntradasKey(7)}; assert store.entries == m0 - gone;
    store.Forget(SaidasKey(7)); ForgetStep(m0, gone, SaidasKey(7));
    gone := gone + {SaidasKey(7)}; assert store.entries == m0 - gone;
    store.Forget(PorHoraKey); ForgetStep(m0, gone, PorHoraKey);
    gone := gone + {PorHoraKey}; assert store.entries == m0 - gone;
    assert gone == ReadKeys(today);
    ForgetSame(m0, gone, ReadKeys(today));
  }

  /** `invalidateCacheOnNewFluxo`: the same nine keys in a different order. */
  method InvalidateCacheOnNewFluxo(store: Store, now: DateTime)
    modifies store
    ensures store.entries == old(store.entries) - ReadKeys(now.date)
  {
    var today := now.date;
    ghost var m0, gone: set<Key> := store.entries, {};
    store.Forget(HojeEntradasKey(today)); ForgetStep(m0, gone, HojeEntradasKey(today));
    gone := gone + {HojeEntradasKey(today)}; assert store.entries == m0 - gone;
    store.Forget(HojeSaidasKey(today)); ForgetStep(m0, gone, HojeSaidasKey(today));
    gone := gone + {HojeSaidasKey(today)}; assert store.entries == m0 - gone;
    store.Forget(PorHoraKey); ForgetStep(m0, gone, PorHoraKey);
    gone := gone + {PorHoraKey}; assert store.entries == m0 - gone;
    store.Forget(SaldoTotalKey); ForgetStep(m0, gone, SaldoTotalKey);
    gone := gone + {SaldoTotalKey}; assert store.entries == m0 - gone;
    store.Forget(DebitosTotalKey); ForgetStep(m0, gone, DebitosTotalKey);
    gone := gone + {DebitosTotalKey}; assert store.entries == m0 - gone;
    store.Forget(CreditosTotalKey); ForgetStep(m0, gone, CreditosTotalKey);
    gone := gone + {CreditosTotalKey}; assert store.entries == m0 - gone;
    store.Forget(HistoricoKey(7)); ForgetStep(m0, gone, HistoricoKey(7));
    gone := gone + {HistoricoKey(7)}; assert store.entries == m0 - gone;
    store.Forget(EntradasKey(7)); ForgetStep(m0, gone, EntradasKey(7));
    gone := gone + {EntradasKey(7)}; assert store.entries == m0 - gone;
    store.Forget(SaidasKey(7)); ForgetStep(m0, gone, SaidasKey(7));
    gone := gone + {SaidasKey(7)}; assert store.entries == m0 - gone;
    assert gone == ReadKeys(today);
    ForgetSame(m0, gone, ReadKeys(today));
  }

  /** After an invalidation, the next `getStats` shows the fresh figures, whatever the cache held. */
  lemma LidoAposInvalidar(m: Entries, rows: seq<FluxoCaixa>, now: DateTime)
    requires ValidDateTime(now)
    ensures StatsKinds(m - ReadKeys(now.date), now.date)
    ensures Lido(m - ReadKeys(now.date), rows, now) == Fresco(rows, now.date)
  {
    LidoSemCache(m - ReadKeys(now.date), rows, now);
  }

  /** Invalidating on one day leaves the daily totals cached for any other day. */
  lemma OutrosDiasMantidos(m: Entries, hoje: Date, outro: Date)
    requires outro != hoje
    ensures var m1 := m - ReadKeys(hoje);
      && (HojeEntradasKey(outro) in m ==> m1[HojeEntradasKey(outro)] == m[HojeEntradasKey(outro)])
      && (HojeSaidasKey(outro) in m ==> m1[HojeSaidasKey(outro)] == m[HojeSaidasKey(outro)])
  {
  }
}
