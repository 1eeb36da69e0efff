/**
 * The accounts-payable widget (`PagarHojeStatsOverview`): open instalments
 * (status 0) due "today", "this month" and overall, a chart of the last
 * seven days, a chart of the days of the current month, a chart of the last
 * twelve months, and the two invalidation methods. Instalments are summed by
 * `valor_parcela` and dated by `data_vencimento`.
 */
module PagarHojeStatsOverview {
  import opened Calendar
  import opened Money
  import opened Ledger
  import opened Keys
  import opened Cache

  // ---- cache keys and TTLs (seconds) ----

  const TotalGeralKey := Key(PagarTotalGeral, NoArg)
  /** "contas_pagar_dados_hoje_7_dias": no date in the key. */
  const DadosHojeKey := Key(PagarDadosHoje, NoArg)
  const DadosGeralKey := Key(PagarDadosGeral, NoArg)

  /** "contas_pagar_total_hoje_{Y-m-d}" */
  function TotalHojeKey(hoje: Date): Key {
    Key(PagarTotalHoje, DateArg(hoje))
  }

  /** "contas_pagar_total_mes_{ano}_{mes}" */
  function TotalMesKey(ym: YearMonth): Key {
    Key(PagarTotalMes, MonthArg(ym))
  }

  /** "contas_pagar_dados_mes_{ano}_{mes}" */
  function DadosMesKey(ym: YearMonth): Key {
    Key(PagarDadosMes, MonthArg(ym))
  }

  const TtlHoje := 5 * 60
  const TtlMes := 10 * 60
  const TtlGeral := 60 * 60

  /** The number of days of the last-days chart. */
  const DiasGrafico := 7

  // ---- queries over contas_pagars ----

  function Parcela(): ContaPagar -> int {
    (r: ContaPagar) => r.valorParcela
  }

  /** `where('status', 0)`: instalments still open. */
  function Aberta(): ContaPagar -> bool {
    (r: ContaPagar) => r.status == 0
  }

  /** `whereDay('data_vencimento', dia)`: the day of the month only, in any month of any year. */
  function NoDiaDoMes(dia: int): ContaPagar -> bool {
    (r: ContaPagar) => r.dataVencimento.day == dia
  }

  /** `whereMonth('data_vencimento', mes)`: the month only, in any year. */
  function NoMesDoAno(mes: int): ContaPagar -> bool {
    (r: ContaPagar) => r.dataVencimento.month == mes
  }

  /** `whereDate('data_vencimento', d)`. */
  function NaData(d: Date): ContaPagar -> bool {
    (r: ContaPagar) => r.dataVencimento == d
  }

  /** `whereYear(ano)->whereMonth(mes)`. */
  function NoMes(ym: YearMonth): ContaPagar -> bool {
    (r: ContaPagar) => r.dataVencimento.year == ym.year && r.dataVencimento.month == ym.month
  }

  /** `whereYear(ano)->whereMonth(mes)->whereDay(dia)`. */
  function NoDia(ym: YearMonth, dia: int): ContaPagar -> bool {
    (r: ContaPagar) => r.dataVencimento.year == ym.year && r.dataVencimento.month == ym.month && r.dataVencimento.day == dia
  }

  /** The "today" total: open instalments whose due day of the month is today's. */
  function TotalHoje(rows: seq<ContaPagar>, hoje: Date): int {
    SumWhere(rows, And(Aberta(), NoDiaDoMes(hoje.day)), Parcela())
  }

  /** The "month" total: open instalments whose due month number is the current one. */
  function TotalMes(rows: seq<ContaPagar>, hoje: Date): int {
    SumWhere(rows, And(Aberta(), NoMesDoAno(hoje.month)), Parcela())
  }

  function TotalGeral(rows: seq<ContaPagar>): int {
    SumWhere(rows, Aberta(), Parcela())
  }

  function AbertasNaData(rows: seq<ContaPagar>, d: Date): int {
    SumWhere(rows, And(Aberta(), NaData(d)), Parcela())
  }

  function AbertasNoDia(rows: seq<ContaPagar>, ym: YearMonth, dia: int): int {
    SumWhere(rows, And(Aberta(), NoDia(ym, dia)), Parcela())
  }

  function AbertasNoMes(rows: seq<ContaPagar>, ym: YearMonth): int {
    SumWhere(rows, And(Aberta(), NoMes(ym)), Parcela())
  }

  // ---- the last-7-days chart ----

  /** Point j is the date `subDays(6 - j)`: oldest first, today last. */
  function DadosHoje(rows: seq<ContaPagar>, hoje: Date): seq<int>
    requires ValidDate(hoje)
  {
    seq(DiasGrafico, j => AbertasNaData(rows, DayPoint(hoje, DiasGrafico, j)))
  }

  /** The `for ($i = 6; $i >= 0; $i--)` loop of `gerarDadosHoje`. */
  method CalcularDadosHoje(rows: seq<ContaPagar>, hoje: Date) returns (dados: seq<int>)
    requires ValidDate(hoje)
    ensures dados == DadosHoje(rows, hoje)
  {
    dados := [];
    var i := 6;
    while i >= 0
      invariant -1 <= i <= 6
      invariant dados == DadosHoje(rows, hoje)[..6 - i]
    {
      var data := ShiftDays(hoje, -i);
      dados := dados + [SumWhere(rows, And(Aberta(), NaData(data)), Parcela())];
      i := i - 1;
    }
  }

  // ---- the month chart ----

  /** Point k is day k + 1 of month ym; there are `min(daysInMonth, today's day)` points. */
  function DadosMes(rows: seq<ContaPagar>, ym: YearMonth, diaHoje: int): seq<int>
    requires 1 <= ym.month <= 12
  {
    seq(Pontos(DaysElapsed(ym, diaHoje)), k => AbertasNoDia(rows, ym, k + 1))
  }

  /** The `for ($dia = 1; $dia <= $diasTranscorridos; $dia++)` loop of `gerarDadosMes`. */
  method CalcularDadosMes(rows: seq<ContaPagar>, ym: YearMonth, diaHoje: int) returns (dados: seq<int>)
    requires 1 <= ym.month <= 12
    ensures dados == DadosMes(rows, ym, diaHoje)
  {
    var diasNoMes := DaysInMonth(ym.year, ym.month);
    var diasTranscorridos := if diasNoMes < diaHoje then diasNoMes else diaHoje;
    dados := [];
    var dia := 1;
    while dia <= diasTranscorridos
      invariant 1 <= dia <= Pontos(diasTranscorridos) + 1
      invariant dados == DadosMes(rows, ym, diaHoje)[..dia - 1]
    {
      dados := dados + [SumWhere(rows, And(Aberta(), NoDia(ym, dia)), Parcela())];
      dia := dia + 1;
    }
  }

  // ---- the 12-month chart ----

  /** Point j is the month `subMonths(11 - j)`, filtered by year and month. */
  function DadosGeral(rows: seq<ContaPagar>, hoje: Date): seq<int>
    requires 1 <= hoje.month <= 12
  {
    seq(12, j => AbertasNoMes(rows, MonthPoint(MonthOf(hoje), j)))
  }

  /** The `for ($i = 11; $i >= 0; $i--)` loop of `gerarDadosGeral`. */
  method CalcularDadosGeral(rows: seq<ContaPagar>, hoje: Date) returns (dados: seq<int>)
    requires 1 <= hoje.month <= 12
    ensures dados == DadosGeral(rows, hoje)
  {
    dados := [];
    var i := 11;
    while i >= 0
      invariant -1 <= i <= 11
      invariant dados == DadosGeral(rows, hoje)[..11 - i]
    {
      var data := MonthsBack(MonthOf(hoje), i);
      dados := dados + [SumWhere(rows, And(Aberta(), NoMes(data)), Parcela())];
      i := i - 1;
    }
  }

  // ---- cache-backed chart helpers ----

  /** The seven-day chart; its key carries no date, so one stored before midnight is still served after it. */
  method GerarDadosHoje(store: Store, db: Db, now: DateTime) returns (dados: seq<int>)
    requires ValidDateTime(now)
    requires Holds(store.entries, DadosHojeKey, SeriesKind)
    modifies store
    ensures var computed := Series(DadosHoje(db.contasPagars, now.date));
      dados == Recall(old(store.entries), DadosHojeKey, Stamp(now), computed).points
      && store.entries == Refreshed(old(store.entries), DadosHojeKey, Stamp(now), TtlHoje, computed)
  {
    var hit := store.Get(DadosHojeKey, Stamp(now));
    if hit.Some? {
      dados := hit.value.points;
    } else {
      dados := CalcularDadosHoje(db.contasPagars, now.date);
      store.Put(DadosHojeKey, Series(dados), Stamp(now) + TtlHoje);
    }
  }

  method GerarDadosMes(store: Store, db: Db, now: DateTime) returns (dados: seq<int>)
    requires ValidDateTime(now)
    requires Holds(store.entries, DadosMesKey(MonthOf(now.date)), SeriesKind)
    modifies store
    ensures var computed := Series(DadosMes(db.contasPagars, MonthOf(now.date), now.date.day));
      dados == Recall(old(store.entries), DadosMesKey(MonthOf(now.date)), Stamp(now), computed).points
      && store.entries == Refreshed(old(store.entries), DadosMesKey(MonthOf(now.date)), Stamp(now), TtlMes, computed)
  {
    var ym := MonthOf(now.date);
    var key := DadosMesKey(ym);
    var hit := store.Get(key, Stamp(now));
    if hit.Some? {
      dados := hit.value.points;
    } else {
      dados := CalcularDadosMes(db.contasPagars, ym, now.date.day);
      store.Put(key, Series(dados), Stamp(now) + TtlMes);
    }
  }

  method GerarDadosGeral(store: Store, db: Db, now: DateTime) returns (dados: seq<int>)
    requires ValidDateTime(now)
    requires Holds(store.entries, DadosGeralKey, SeriesKind)
    modifies store
    ensures var computed := Series(DadosGeral(db.contasPagars, now.date));
      dados == Recall(old(store.entries), DadosGeralKey, Stamp(now), computed).points
      && store.entries == Refreshed(old(store.entries), DadosGeralKey, Stamp(now), TtlGeral, computed)
  {
    var hit := store.Get(DadosGeralKey, Stamp(now));
    if hit.Some? {
      dados := hit.value.points;
    } else {
      dados := CalcularDadosGeral(db.contasPagars, now.date);
      store.Put(DadosGeralKey, Series(dados), Stamp(now) + TtlGeral);
    }
  }

  // ---- getStats ----

  /** The figures `getStats` shows, before presentation. */
  datatype Painel = Painel(
    totalHoje: int, totalMes: int, totalGeral: int,
    dadosHoje: seq<int>, dadosMes: seq<int>, dadosGeral: seq<int>)

  /** The figures as freshly computed from the table. */
  function Fresco(rows: seq<ContaPagar>, hoje: Date): Painel
    requires ValidDate(hoje)
  {
    Painel(TotalHoje(rows, hoje), TotalMes(rows, hoje), TotalGeral(rows),
           DadosHoje(rows, hoje), DadosMes(rows, MonthOf(hoje), hoje.day), DadosGeral(rows, hoje))
  }

  /** The keys of the three totals: all that `invalidateCacheOnChange` forgets. */
  function TotaisKeys(hoje: Date): set<Key> {
    {TotalHojeKey(hoje), TotalMesKey(MonthOf(hoje)), TotalGeralKey}
  }

  function GraficosKeys(hoje: Date): set<Key> {
    {DadosHojeKey, DadosMesKey(MonthOf(hoje)), DadosGeralKey}
  }

  /** Every key `getStats` reads on a given day: all that `clearCache` forgets. */
  function ReadKeys(hoje: Date): set<Key> {
    TotaisKeys(hoje) + GraficosKeys(hoje)
  }

  predicate GraficosKinds(m: Entries, hoje: Date) {
    && Holds(m, DadosHojeKey, SeriesKind) && Holds(m, DadosMesKey(MonthOf(hoje)), SeriesKind)
    && Holds(m, DadosGeralKey, SeriesKind)
  }

  predicate StatsKinds(m: Entries, hoje: Date) {
    && Holds(m, TotalHojeKey(hoje), AmountKind) && Holds(m, TotalMesKey(MonthOf(hoje)), AmountKind)
    && Holds(m, TotalGeralKey, AmountKind)
    && GraficosKinds(m, hoje)
  }

  /** What `getStats` shows when the cache holds m at `now`: each figure is the cached one if live, else fresh. */
  function Lido(m: Entries, rows: seq<ContaPagar>, now: DateTime): Painel
    requires ValidDateTime(now) && StatsKinds(m, now.date)
  {
    var hoje, t := now.date, Stamp(now);
    var f := Fresco(rows, hoje);
    Painel(
      Recall(m, TotalHojeKey(hoje), t, Amount(f.totalHoje)).cents,
      Recall(m, TotalMesKey(MonthOf(hoje)), t, Amount(f.totalMes)).cents,
      Recall(m, TotalGeralKey, t, Amount(f.totalGeral)).cents,
      Recall(m, DadosHojeKey, t, Series(f.dadosHoje)).points,
      Recall(m, DadosMesKey(MonthOf(hoje)), t, Series(f.dadosMes)).points,
      Recall(m, DadosGeralKey, t, Series(f.dadosGeral)).points)
  }

  function TotaisRequests(rows: seq<ContaPagar>, hoje: Date): seq<Request>
    requires ValidDate(hoje)
  {
    var f := Fresco(rows, hoje);
    [Request(TotalHojeKey(hoje), TtlHoje, Amount(f.totalHoje)),
     Request(TotalMesKey(MonthOf(hoje)), TtlMes, Amount(f.totalMes)),
     Request(TotalGeralKey, TtlGeral, Amount(f.totalGeral))]
  }

  function GraficosRequests(rows: seq<ContaPagar>, hoje: Date): seq<Request>
    requires ValidDate(hoje)
  {
    var f := Fresco(rows, hoje);
    [Request(DadosHojeKey, TtlHoje, Series(f.dadosHoje)),
     Request(DadosMesKey(MonthOf(hoje)), TtlMes, Series(f.dadosMes)),
     Request(DadosGeralKey, TtlGeral, Series(f.dadosGeral))]
  }

  function StatsRequests(rows: seq<ContaPagar>, hoje: Date): seq<Request>
    requires ValidDate(hoje)
  {
    TotaisRequests(rows, hoje) + GraficosRequests(rows, hoje)
  }

  lemma TotaisEmSequencia(m: Entries, rows: seq<ContaPagar>, hoje: Date, t: int)
    requires ValidDate(hoje)
    ensures var r := TotaisRequests(rows, hoje);
      RememberAll(m, r, t)
      == Refreshed(Refreshed(Refreshed(m,
           r[0].key, t, r[0].ttl, r[0].computed), r[1].key, t, r[1].ttl, r[1].computed),
           r[2].key, t, r[2].ttl, r[2].computed)
    ensures RequestKeys(TotaisRequests(rows, hoje)) == TotaisKeys(hoje)
  {
    var r := TotaisRequests(rows, hoje);
    RememberAllStep(m, r, 1, t);
    RememberAllStep(m, r, 2, t);
    RememberAllStep(m, r, 3, t);
    assert r[..0] == [] && r[..3] == r;
  }

  lemma GraficosEmSequencia(m: Entries, rows: seq<ContaPagar>, hoje: Date, t: int)
    requires ValidDate(hoje)
    ensures var r := GraficosRequests(rows, hoje);
      RememberAll(m, r, t)
      == Refreshed(Refreshed(Refreshed(m,
           r[0].key, t, r[0].ttl, r[0].computed), r[1].key, t, r[1].ttl, r[1].computed),
           r[2].key, t, r[2].ttl, r[2].computed)
    ensures RequestKeys(GraficosRequests(rows, hoje)) == GraficosKeys(hoje)
  {
    var r := GraficosRequests(rows, hoje);
    RememberAllStep(m, r, 1, t);
    RememberAllStep(m, r, 2, t);
    RememberAllStep(m, r, 3, t);
    assert r[..0] == [] && r[..3] == r;
  }

  lemma TotaisPreservamGraficos(m: Entries, rows: seq<ContaPagar>, hoje: Date, t: int)
    requires ValidDate(hoje)
    ensures var m1 := RememberAll(m, TotaisRequests(rows, hoje), t);
      forall k | k in GraficosKeys(hoje) :: (k in m1 <==> k in m) && (k in m1 ==> m1[k] == m[k])
  {
    var r := TotaisRequests(rows, hoje);
    TotaisEmSequencia(m, rows, hoje, t);
    forall k | k in GraficosKeys(hoje)
      ensures var m1 := RememberAll(m, r, t); (k in m1 <==> k in m) && (k in m1 ==> m1[k] == m[k])
    {
      RememberAllUntouched(m, r, t, k);
    }
  }

  /** The three totals of `getStats`, each through `Cache::remember` under its own key. */
  method BuscarTotais(store: Store, db: Db, now: DateTime) returns (totalHoje: int, totalMes: int, totalGeral: int)
    requires ValidDateTime(now) && StatsKinds(store.entries, now.date)
    modifies store
    ensures var p := Lido(old(store.entries), db.contasPagars, now);
      totalHoje == p.totalHoje && totalMes == p.totalMes && totalGeral == p.totalGeral
    ensures store.entries == RememberAll(old(store.entries), TotaisRequests(db.contasPagars, now.date), Stamp(now))
  {
    var t, rows, hoje := Stamp(now), db.contasPagars, now.date;
    TotaisEmSequencia(store.entries, rows, hoje, t);
    totalHoje := RememberAmount(store, TotalHojeKey(hoje), TtlHoje, t, TotalHoje(rows, hoje));
    totalMes := RememberAmount(store, TotalMesKey(MonthOf(hoje)), TtlMes, t, TotalMes(rows, hoje));
    totalGeral := RememberAmount(store, TotalGeralKey, TtlGeral, t, TotalGeral(rows));
  }

  /** The three charts of `getStats`, each through `Cache::remember` under its own key. */
  method BuscarGraficos(store: Store, db: Db, now: DateTime) returns (dadosHoje: seq<int>, dadosMes: seq<int>, dadosGeral: seq<int>)
    requires ValidDateTime(now) && GraficosKinds(store.entries, now.date)
    modifies store
    ensures var m, t, f, hoje := old(store.entries), Stamp(now), Fresco(db.contasPagars, now.date), now.date;
      && dadosHoje == Recall(m, DadosHojeKey, t, Series(f.dadosHoje)).points
      && dadosMes == Recall(m, DadosMesKey(MonthOf(hoje)), t, Series(f.dadosMes)).points
      && dadosGeral == Recall(m, DadosGeralKey, t, Series(f.dadosGeral)).points
    ensures store.entries == RememberAll(old(store.entries), GraficosRequests(db.contasPagars, now.date), Stamp(now))
  {
    GraficosEmSequencia(store.entries, db.contasPagars, now.date, Stamp(now));
    dadosHoje := GerarDadosHoje(store, db, now);
    dadosMes := GerarDadosMes(store, db, now);
    dadosGeral := GerarDadosGeral(store, db, now);
  }

  /** `getStats`: three cached totals and three cached charts. */
  method GetStats(store: Store, db: Db, now: DateTime) returns (p: Painel)
    requires ValidDateTime(now) && StatsKinds(store.entries, now.date)
    modifies store
    ensures p == Lido(old(store.entries), db.contasPagars, now)
    ensures store.entries == RememberAll(old(store.entries), StatsRequests(db.contasPagars, now.date), Stamp(now))
  {
    ghost var m0 := store.entries;
    TotaisPreservamGraficos(m0, db.contasPagars, now.date, Stamp(now));
    var totalHoje, totalMes, totalGeral := BuscarTotais(store, db, now);
    var dadosHoje, dadosMes, dadosGeral := BuscarGraficos(store, db, now);
    RememberAllConcat(m0, TotaisRequests(db.contasPagars, now.date), GraficosRequests(db.contasPagars, now.date), Stamp(now));
    p := Painel(totalHoje, totalMes, totalGeral, dadosHoje, dadosMes, dadosGeral);
  }

  /** With nothing cached, `getStats` shows the fresh figures. */
  lemma LidoSemCache(m: Entries, rows: seq<ContaPagar>, now: DateTime)
    requires ValidDateTime(now)
    requires forall k | k in ReadKeys(now.date) :: k !in m
    ensures Lido(m, rows, now) == Fresco(rows, now.date)
  {
    var hoje := now.date;
    assert TotalHojeKey(hoje) in ReadKeys(hoje) && TotalMesKey(MonthOf(hoje)) in ReadKeys(hoje);
    assert TotalGeralKey in ReadKeys(hoje) && DadosHojeKey in ReadKeys(hoje);
    assert DadosMesKey(MonthOf(hoje)) in ReadKeys(hoje) && DadosGeralKey in ReadKeys(hoje);
  }

  /** A paid (or otherwise closed) instalment changes no figure: every sum is over status 0 only. */
  lemma ContaFechadaIgnorada(rows: seq<ContaPagar>, r: ContaPagar, hoje: Date)
    requires ValidDate(hoje) && r.status != 0
    ensures Fresco(rows + [r], hoje) == Fresco(rows, hoje)
  {
    var f0, f1 := Fresco(rows, hoje), Fresco(rows + [r], hoje);
    SumWhereAppend(rows, r, And(Aberta(), NoDiaDoMes(hoje.day)), Parcela());
    SumWhereAppend(rows, r, And(Aberta(), NoMesDoAno(hoje.month)), Parcela());
    SumWhereAppend(rows, r, Aberta(), Parcela());
    forall j | 0 <= j < DiasGrafico ensures f1.dadosHoje[j] == f0.dadosHoje[j] {
      SumWhereAppend(rows, r, And(Aberta(), NaData(DayPoint(hoje, DiasGrafico, j))), Parcela());
    }
    forall k | 0 <= k < |f0.dadosMes| ensures f1.dadosMes[k] == f0.dadosMes[k] {
      SumWhereAppend(rows, r, And(Aberta(), NoDia(MonthOf(hoje), k + 1)), Parcela());
    }
    forall j | 0 <= j < 12 ensures f1.dadosGeral[j] == f0.dadosGeral[j] {
      SumWhereAppend(rows, r, And(Aberta(), NoMes(MonthPoint(MonthOf(hoje), j))), Parcela());
    }
  }

  /**
   * The "today" total matches the due day of the month only: an open
   * instalment due on today's day number of another month counts in it,
   * while the chart's point for today leaves it out.
   */
  lemma HojeIgnoraMesEAno(r: ContaPagar, hoje: Date)
    requires ValidDate(hoje) && r.status == 0
    requires r.dataVencimento.day == hoje.day && r.dataVencimento != hoje
    ensures TotalHoje([r], hoje) == r.valorParcela
    ensures DadosHoje([r], hoje)[DiasGrafico - 1] == 0
  {
    DayPointOrder(hoje, DiasGrafico, 0);
    SumWhereOne(r, And(Aberta(), NoDiaDoMes(hoje.day)), Parcela());
    SumWhereOne(r, And(Aberta(), NaData(DayPoint(hoje, DiasGrafico, DiasGrafico - 1))), Parcela());
  }

  /**
   * The "month" total matches the month number only, although its key
   * carries the year: an open instalment due in this month of another year
   * counts in it, while the 12-month chart's current point leaves it out.
   */
  lemma MesIgnoraAno(r: ContaPagar, hoje: Date)
    requires ValidDate(hoje) && r.status == 0
    requires r.dataVencimento.month == hoje.month && r.dataVencimento.year != hoje.year
    ensures TotalMes([r], hoje) == r.valorParcela
    ensures DadosGeral([r], hoje)[11] == 0
  {
    MonthPointOrder(MonthOf(hoje), 0);
    SumWhereOne(r, And(Aberta(), NoMesDoAno(hoje.month)), Parcela());
    SumWhereOne(r, And(Aberta(), NoMes(MonthPoint(MonthOf(hoje), 11))), Parcela());
  }

  /** Chart lengths: seven days, the days of the month elapsed, twelve months. */
  lemma FrescoTamanhos(rows: seq<ContaPagar>, hoje: Date)
    requires ValidDate(hoje)
    ensures var f := Fresco(rows, hoje);
      |f.dadosHoje| == DiasGrafico && |f.dadosMes| == hoje.day && |f.dadosGeral| == 12
  {
  }

  /** The three headline values as displayed, today, month, all time; Money.ExibirReaisFiel reads each back. */
  function Exibicao(p: Painel): seq<string> {
    ExibirReais([p.totalHoje, p.totalMes, p.totalGeral])
  }

  // ---- invalidation ----

  /** `clearCache`: forgets the six keys of the current day and month. */
  method ClearCache(store: Store, now: DateTime)
    modifies store
    ensures store.entries == old(store.entries) - ReadKeys(now.date)
  {
    var hoje := now.date;
    ghost var m0, gone: set<Key> := store.entries, {};
    store.Forget(TotalHojeKey(hoje)); ForgetStep(m0, gone, TotalHojeKey(hoje));
    gone := gone + {TotalHojeKey(hoje)}; assert store.entries == m0 - gone;
    store.Forget(TotalMesKey(MonthOf(hoje))); ForgetStep(m0, gone, TotalMesKey(MonthOf(hoje)));
    gone := gone + {TotalMesKey(MonthOf(hoje))}; assert store.entries == m0 - gone;
    store.Forget(TotalGeralKey); ForgetStep(m0, gone, TotalGeralKey);
    gone := gone + {TotalGeralKey}; assert store.entries == m0 - gone;
    store.Forget(DadosHojeKey); ForgetStep(m0, gone, DadosHojeKey);
    gone := gone + {DadosHojeKey}; assert store.entries == m0 - gone;
    store.Forget(DadosMesKey(MonthOf(hoje))); ForgetStep(m0, gone, DadosMesKey(MonthOf(hoje)));
    gone := gone + {DadosMesKey(MonthOf(hoje))}; assert store.entries == m0 - gone;
    store.Forget(DadosGeralKey); ForgetStep(m0, gone, DadosGeralKey);
    gone := gone + {DadosGeralKey}; assert store.entries == m0 - gone;
    assert gone == ReadKeys(hoje);
    ForgetSame(m0, gone, ReadKeys(hoje));
  }

  /** `invalidateCacheOnChange`: forgets the three totals only. */
  method InvalidateCacheOnChange(store: Store, now: DateTime)
    modifies store
    ensures store.entries == old(store.entries) - TotaisKeys(now.date)
  {
    var hoje := now.date;
    ghost var m0, gone: set<Key> := store.entries, {};
    store.Forget(TotalHojeKey(hoje)); ForgetStep(m0, gone, TotalHojeKey(hoje));
    gone := gone + {TotalHojeKey(hoje)}; assert store.entries == m0 - gone;
    store.Forget(TotalMesKey(MonthOf(hoje))); ForgetStep(m0, gone, TotalMesKey(MonthOf(hoje)));
    gone := gone + {TotalMesKey(MonthOf(hoje))}; assert store.entries == m0 - gone;
    store.Forget(TotalGeralKey); ForgetStep(m0, gone, TotalGeralKey);
    gone := gone + {TotalGeralKey}; assert store.entries == m0 - gone;
    assert gone == TotaisKeys(hoje);
    ForgetSame(m0, gone, TotaisKeys(hoje));
  }

  /** After `clearCache`, the next `getStats` shows the fresh figures. */
  lemma LidoAposLimpar(m: Entries, rows: seq<ContaPagar>, now: DateTime)
    requires ValidDateTime(now)
    ensures StatsKinds(m - ReadKeys(now.date), now.date)
    ensures Lido(m - ReadKeys(now.date), rows, now) == Fresco(rows, now.date)
  {
    LidoSemCache(m - ReadKeys(now.date), rows, now);
  }

  /**
   * After `invalidateCacheOnChange`, the next `getStats` shows fresh totals
   * but whatever charts were still cached: a change to an instalment does
   * not reach the charts until their TTLs run out.
   */
  lemma LidoAposInvalidar(m: Entries, rows: seq<ContaPagar>, now: DateTime)
    requires ValidDateTime(now) && StatsKinds(m, now.date)
    ensures StatsKinds(m - TotaisKeys(now.date), now.date)
    ensures var p, q, f := Lido(m - TotaisKeys(now.date), rows, now), Lido(m, rows, now), Fresco(rows, now.date);
      && p.totalHoje == f.totalHoje && p.totalMes == f.totalMes && p.totalGeral == f.totalGeral
      && p.dadosHoje == q.dadosHoje && p.dadosMes == q.dadosMes && p.dadosGeral == q.dadosGeral
  {
    var hoje := now.date;
    assert TotalHojeKey(hoje) in TotaisKeys(hoje) && TotalMesKey(MonthOf(hoje)) in TotaisKeys(hoje);
    assert TotalGeralKey in TotaisKeys(hoje);
  }
}
