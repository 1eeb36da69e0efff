/**
 * The purchases widget (`ComprasMesChart`, declared in CompraStatsOverview.php):
 * purchases of today, of the current month and of all time, a chart of the
 * last twelve one-hour windows, a chart of the days of the current month, a
 * chart of the last twelve months, a daily average, and the two
 * invalidation methods. Purchases are summed by `valor_total` and dated by
 * `data_compra`.
 */
module ComprasMesChart {
  import opened Calendar
  import opened Money
  import opened Ledger
  import opened Keys
  import opened Cache

  // ---- cache keys and TTLs (seconds) ----

  const TotalGeralKey := Key(ComprasTotalGeral, NoArg)
  const DadosGeralKey := Key(ComprasDadosGeral, NoArg)

  /** "compras_total_mes_{ano}_{mes}" */
  function TotalMesKey(ym: YearMonth): Key {
    Key(ComprasTotalMes, MonthArg(ym))
  }

  /** "compras_total_hoje_{Y-m-d}" */
  function TotalHojeKey(hoje: Date): Key {
    Key(ComprasTotalHoje, DateArg(hoje))
  }

  /** "compras_dados_hoje_{Y-m-d}" */
  function DadosHojeKey(hoje: Date): Key {
    Key(ComprasDadosHoje, DateArg(hoje))
  }

  /** "compras_dados_mes_{ano}_{mes}" */
  function DadosMesKey(ym: YearMonth): Key {
    Key(ComprasDadosMes, MonthArg(ym))
  }

  /** "compras_media_diaria_{ano}_{mes}" */
  function MediaDiariaKey(ym: YearMonth): Key {
    Key(ComprasMediaDiaria, MonthArg(ym))
  }

  const TtlGeral := 60 * 60
  const TtlMes := 15 * 60
  const TtlHoje := 5 * 60

  const Hora := 60 * 60
  const Dia := 24 * 60 * 60

  // ---- queries over compras ----

  function ValorTotal(): Compra -> int {
    (r: Compra) => r.valorTotal
  }

  function Todas(): Compra -> bool {
    (r: Compra) => true
  }

  /** `whereYear('data_compra', ano)->whereMonth('data_compra', mes)`. */
  function NoMes(ano: int, mes: int): Compra -> bool {
    (r: Compra) => r.dataCompra.date.year == ano && r.dataCompra.date.month == mes
  }

  /** `whereDate('data_compra', d)`. */
  function NaData(d: Date): Compra -> bool {
    (r: Compra) => r.dataCompra.date == d
  }

  /** `whereYear(ano)->whereMonth(mes)->whereDay(dia)`. */
  function NoDia(ano: int, mes: int, dia: int): Compra -> bool {
    (r: Compra) => r.dataCompra.date.year == ano && r.dataCompra.date.month == mes && r.dataCompra.date.day == dia
  }

  /** `whereDate(d)->whereTime('>=', ini)->whereTime('<=', fim)`, times as seconds since midnight. */
  function NaJanela(d: Date, ini: int, fim: int): Compra -> bool {
    (r: Compra) => r.dataCompra.date == d && ini <= TimeOfDay(r.dataCompra) <= fim
  }

  function TotalGeral(rows: seq<Compra>): int {
    SumWhere(rows, Todas(), ValorTotal())
  }

  function TotalMes(rows: seq<Compra>, ym: YearMonth): int {
    SumWhere(rows, NoMes(ym.year, ym.month), ValorTotal())
  }

  function TotalHoje(rows: seq<Compra>, hoje: Date): int {
    SumWhere(rows, NaData(hoje), ValorTotal())
  }

  /** Purchases on one date of one month, as the month chart selects them. */
  function TotalNoDia(rows: seq<Compra>, ym: YearMonth, dia: int): int {
    SumWhere(rows, NoDia(ym.year, ym.month, dia), ValorTotal())
  }

  // ---- the last-12-hours chart ----

  /** `Carbon::now()->subHours(k)->format('H:i:s')` as seconds since midnight: it wraps to the previous day's clock. */
  function HoraMenos(now: DateTime, k: int): int {
    (TimeOfDay(now) - k * Hora) % Dia
  }

  /** Point for window i, from i + 1 hours ago to i hours ago, both ends included, on today's date only. */
  function ValorNaJanela(rows: seq<Compra>, now: DateTime, i: int): int {
    SumWhere(rows, NaJanela(now.date, HoraMenos(now, i + 1), HoraMenos(now, i)), ValorTotal())
  }

  /** The twelve windows, oldest (i = 11) first. */
  function UltimasHoras(rows: seq<Compra>, now: DateTime): seq<int> {
    seq(12, j => ValorNaJanela(rows, now, 11 - j))
  }

  /** The `for ($i = 11; $i >= 0; $i--)` loop of `gerarDadosHoje`. */
  method CalcularDadosHoje(rows: seq<Compra>, now: DateTime) returns (dados: seq<int>)
    ensures dados == UltimasHoras(rows, now)
  {
    dados := [];
    var i := 11;
    while i >= 0
      invariant -1 <= i <= 11
      invariant dados == UltimasHoras(rows, now)[..11 - i]
    {
      var inicio := HoraMenos(now, i + 1);
      var fim := HoraMenos(now, i);
      dados := dados + [SumWhere(rows, NaJanela(now.date, inicio, fim), ValorTotal())];
      i := i - 1;
    }
  }

  /** Only today's purchases reach the chart: with none today, every point is 0. */
  lemma UltimasHorasSoHoje(rows: seq<Compra>, now: DateTime)
    requires forall k | 0 <= k < |rows| :: rows[k].dataCompra.date != now.date
    ensures |UltimasHoras(rows, now)| == 12
    ensures forall j | 0 <= j < 12 :: UltimasHoras(rows, now)[j] == 0
  {
    forall j | 0 <= j < 12 ensures UltimasHoras(rows, now)[j] == 0 {
      var i := 11 - j;
      SumWhereNone(rows, NaJanela(now.date, HoraMenos(now, i + 1), HoraMenos(now, i)), ValorTotal());
    }
  }

  /**
   * Both ends of a window are included, so a purchase made exactly on the
   * boundary between two windows that do not cross midnight is counted in both.
   */
  lemma FronteiraContadaDuasVezes(r: Compra, now: DateTime, i: int)
    requires ValidDateTime(now) && 0 <= i < 11
    requires (i + 2) * Hora <= TimeOfDay(now)
    requires r.dataCompra.date == now.date && TimeOfDay(r.dataCompra) == TimeOfDay(now) - (i + 1) * Hora
    ensures UltimasHoras([r], now)[10 - i] == r.valorTotal
    ensures UltimasHoras([r], now)[11 - i] == r.valorTotal
  {
    TimeOfDayRange(now);
    HoraMenosSemVolta(now, i);
    HoraMenosSemVolta(now, i + 1);
    HoraMenosSemVolta(now, i + 2);
    SumWhereOne(r, NaJanela(now.date, HoraMenos(now, i + 2), HoraMenos(now, i + 1)), ValorTotal());
    SumWhereOne(r, NaJanela(now.date, HoraMenos(now, i + 1), HoraMenos(now, i)), ValorTotal());
  }

  lemma TimeOfDayRange(now: DateTime)
    requires ValidDateTime(now)
    ensures 0 <= TimeOfDay(now) < Dia
  {
  }

  /** k hours back from a time at least k hours after midnight stays on the same day's clock. */
  lemma HoraMenosSemVolta(now: DateTime, k: int)
    requires 0 <= k * Hora <= TimeOfDay(now) < Dia
    ensures HoraMenos(now, k) == TimeOfDay(now) - k * Hora
  {
  }

  /**
   * The window that contains midnight starts on the previous day's clock,
   * after it ends, so it selects nothing: its point is always 0.
   */
  lemma JanelaDaMeiaNoiteVazia(rows: seq<Compra>, now: DateTime, i: int)
    requires ValidDateTime(now) && 0 <= i
    requires i * Hora <= TimeOfDay(now) < (i + 1) * Hora
    ensures ValorNaJanela(rows, now, i) == 0
  {
    var t := TimeOfDay(now);
    assert HoraMenos(now, i + 1) == t - (i + 1) * Hora + Dia;
    assert HoraMenos(now, i) == t - i * Hora;
    SumWhereNone(rows, NaJanela(now.date, HoraMenos(now, i + 1), HoraMenos(now, i)), ValorTotal());
  }

  // ---- the month chart ----

  /** Point k is day k + 1 of the month; there are `min(daysInMonth, today's day)` points. */
  function DadosMes(rows: seq<Compra>, ym: YearMonth, diaHoje: int): seq<int>
    requires 1 <= ym.month <= 12
  {
    seq(Pontos(DaysElapsed(ym, diaHoje)), k => TotalNoDia(rows, ym, k + 1))
  }

  /** The `for ($dia = 1; $dia <= $diasTranscorridos; $dia++)` loop of `gerarDadosMesAtual`. */
  method CalcularDadosMes(rows: seq<Compra>, ym: YearMonth, diaHoje: int) returns (dados: seq<int>)
    requires 1 <= ym.month <= 12
    ensures dados == DadosMes(rows, ym, diaHoje)
  {
    var diasNoMes := DaysInMonth(ym.year, ym.month);
    var diasTranscorridos := if diasNoMes < diaHoje then diasNoMes else diaHoje;
    dados := [];
    var dia := 1;
    while dia <= diasTranscorridos
      invariant 1 <= dia <= Pontos(diasTranscorridos) + 1
      invariant dados == DadosMes(rows, ym, diaHoje)[..dia - 1]
    {
      dados := dados + [TotalNoDia(rows, ym, dia)];
      dia := dia + 1;
    }
  }

  /** Called with the current month, the chart has one point per day elapsed, today included. */
  lemma DadosMesTamanho(rows: seq<Compra>, now: DateTime)
    requires ValidDateTime(now)
    ensures |DadosMes(rows, MonthOf(now.date), now.date.day)| == now.date.day
  {
  }

  /** Purchases of month ym dated day 1 to day k. */
  function AteODia(ym: YearMonth, k: int): Compra -> bool {
    (r: Compra) => r.dataCompra.date.year == ym.year && r.dataCompra.date.month == ym.month
      && 1 <= r.dataCompra.date.day <= k
  }

  lemma {:induction false} DadosMesPrefixo(rows: seq<Compra>, ym: YearMonth, diaHoje: int, k: nat)
    requires 1 <= ym.month <= 12 && k <= |DadosMes(rows, ym, diaHoje)|
    ensures SeriesTotal(DadosMes(rows, ym, diaHoje)[..k]) == SumWhere(rows, AteODia(ym, k), ValorTotal())
  {
    var s := DadosMes(rows, ym, diaHoje);
    if k == 0 {
      SumWhereNone(rows, AteODia(ym, 0), ValorTotal());
    } else {
      DadosMesPrefixo(rows, ym, diaHoje, k - 1);
      assert s[..k][..k - 1] == s[..k - 1];
      SumWhereLinear(rows, AteODia(ym, k), ValorTotal(), AteODia(ym, k - 1), ValorTotal(),
        NoDia(ym.year, ym.month, k), ValorTotal());
    }
  }

  /**
   * With no purchase of the current month dated after today, the month
   * chart adds up to the month's total.
   */
  lemma DadosMesSomaTotal(rows: seq<Compra>, now: DateTime)
    requires ValidDateTime(now)
    requires forall k | 0 <= k < |rows| :: ValidDate(rows[k].dataCompra.date)
    requires forall k | 0 <= k < |rows| && MonthOf(rows[k].dataCompra.date) == MonthOf(now.date) ::
      rows[k].dataCompra.date.day <= now.date.day
    ensures SeriesTotal(DadosMes(rows, MonthOf(now.date), now.date.day)) == TotalMes(rows, MonthOf(now.date))
  {
    var ym, d := MonthOf(now.date), now.date.day;
    var s := DadosMes(rows, ym, d);
    DadosMesPrefixo(rows, ym, d, d);
    assert s[..d] == s;
    SumWhereSame(rows, AteODia(ym, d), ValorTotal(), NoMes(ym.year, ym.month), ValorTotal());
  }

  // ---- the 12-month chart ----

  /** Point j is the month `subMonths(11 - j)`: oldest first, the current month last. */
  function DadosGeral(rows: seq<Compra>, hoje: Date): seq<int>
    requires 1 <= hoje.month <= 12
  {
    seq(12, j => TotalMes(rows, MonthPoint(MonthOf(hoje), j)))
  }

  /** The `for ($i = 11; $i >= 0; $i--)` loop of `gerarDadosGeral`. */
  method CalcularDadosGeral(rows: seq<Compra>, hoje: Date) returns (dados: seq<int>)
    requires 1 <= hoje.month <= 12
    ensures dados == DadosGeral(rows, hoje)
  {
    dados := [];
    var i := 11;
    while i >= 0
      invariant -1 <= i <= 11
      invariant dados == DadosGeral(rows, hoje)[..11 - i]
    {
      var data := MonthsBack(MonthOf(hoje), i);
      dados := dados + [SumWhere(rows, NoMes(data.year, data.month), ValorTotal())];
      i := i - 1;
    }
  }

  /** Purchases whose month is one of the first k points. */
  function NosPrimeirosMeses(hoje: Date, k: int): Compra -> bool
    requires 1 <= hoje.month <= 12
  {
    (r: Compra) => MonthOrdinal(MonthPoint(MonthOf(hoje), 0)) <= MonthOrdinal(MonthOf(r.dataCompra.date)) < MonthOrdinal(MonthPoint(MonthOf(hoje), 0)) + k
  }

  lemma {:induction false} DadosGeralPrefixo(rows: seq<Compra>, hoje: Date, k: nat)
    requires 1 <= hoje.month <= 12 && k <= 12
    requires forall i | 0 <= i < |rows| :: 1 <= rows[i].dataCompra.date.month <= 12
    ensures SeriesTotal(DadosGeral(rows, hoje)[..k]) == SumWhere(rows, NosPrimeirosMeses(hoje, k), ValorTotal())
  {
    var s := DadosGeral(rows, hoje);
    if k == 0 {
      SumWhereNone(rows, NosPrimeirosMeses(hoje, 0), ValorTotal());
    } else {
      DadosGeralPrefixo(rows, hoje, k - 1);
      assert s[..k][..k - 1] == s[..k - 1];
      var ym := MonthPoint(MonthOf(hoje), k - 1);
      forall i | 0 <= i < |rows|
        ensures Part(NosPrimeirosMeses(hoje, k), ValorTotal(), rows[i])
          == Part(NosPrimeirosMeses(hoje, k - 1), ValorTotal(), rows[i]) + Part(NoMes(ym.year, ym.month), ValorTotal(), rows[i])
      {
        var rm := MonthOf(rows[i].dataCompra.date);
        if MonthOrdinal(rm) == MonthOrdinal(ym) {
          MonthOrdinalInjective(rm, ym);
        }
      }
      SumWhereLinear(rows, NosPrimeirosMeses(hoje, k), ValorTotal(), NosPrimeirosMeses(hoje, k - 1), ValorTotal(),
        NoMes(ym.year, ym.month), ValorTotal());
    }
  }

  /**
   * The twelve points cover the twelve months ending with the current one,
   * each purchase of those months counted exactly once.
   */
  lemma DadosGeralSoma(rows: seq<Compra>, hoje: Date)
    requires 1 <= hoje.month <= 12
    requires forall i | 0 <= i < |rows| :: 1 <= rows[i].dataCompra.date.month <= 12
    ensures |DadosGeral(rows, hoje)| == 12
    ensures DadosGeral(rows, hoje)[11] == TotalMes(rows, MonthOf(hoje))
    ensures SeriesTotal(DadosGeral(rows, hoje)) == SumWhere(rows, NosPrimeirosMeses(hoje, 12), ValorTotal())
  {
    MonthPointOrder(MonthOf(hoje), 0);
    DadosGeralPrefixo(rows, hoje, 12);
    assert DadosGeral(rows, hoje)[..12] == DadosGeral(rows, hoje);
  }

  // ---- the daily average ----

  /** `max(1, $now->day)`. */
  function Divisor(dia: int): (d: int)
    ensures d >= 1
  {
    if dia > 1 then dia else 1
  }

  /** The month's total spread over the days elapsed. */
  function MediaDiaria(rows: seq<Compra>, hoje: Date): real {
    (TotalMes(rows, MonthOf(hoje)) as real) / (Divisor(hoje.day) as real)
  }

  /** The average never divides by zero, multiplies back to the month's total, and divides by today's day number. */
  lemma MediaDiariaExata(rows: seq<Compra>, hoje: Date)
    requires ValidDate(hoje)
    ensures Divisor(hoje.day) == hoje.day
    ensures MediaDiaria(rows, hoje) * (hoje.day as real) == TotalMes(rows, MonthOf(hoje)) as real
  {
  }

  /** `getMediaDiariaMesAtual`, cached for 15 minutes under the month's key. */
  method GetMediaDiariaMesAtual(store: Store, db: Db, now: DateTime) returns (media: real)
    requires ValidDateTime(now)
    requires Holds(store.entries, MediaDiariaKey(MonthOf(now.date)), AverageKind)
    modifies store
    ensures var computed := Average(MediaDiaria(db.compras, now.date));
      media == Recall(old(store.entries), MediaDiariaKey(MonthOf(now.date)), Stamp(now), computed).media
      && store.entries == Refreshed(old(store.entries), MediaDiariaKey(MonthOf(now.date)), Stamp(now), TtlMes, computed)
  {
    var key := MediaDiariaKey(MonthOf(now.date));
    var v := store.Remember(key, TtlMes, Stamp(now), Average(MediaDiaria(db.compras, now.date)));
    media := v.media;
  }

  // ---- cache-backed chart helpers ----

  method GerarDadosHoje(store: Store, db: Db, now: DateTime) returns (dados: seq<int>)
    requires ValidDateTime(now)
    requires Holds(store.entries, DadosHojeKey(now.date), SeriesKind)
    modifies store
    ensures var computed := Series(UltimasHoras(db.compras, now));
      dados == Recall(old(store.entries), DadosHojeKey(now.date), Stamp(now), computed).points
      && store.entries == Refreshed(old(store.entries), DadosHojeKey(now.date), Stamp(now), TtlHoje, computed)
  {
    var key := DadosHojeKey(now.date);
    var hit := store.Get(key, Stamp(now));
    if hit.Some? {
      dados := hit.value.points;
    } else {
      dados := CalcularDadosHoje(db.compras, now);
      store.Put(key, Series(dados), Stamp(now) + TtlHoje);
    }
  }

  method GerarDadosMesAtual(store: Store, db: Db, now: DateTime, ym: YearMonth) returns (dados: seq<int>)
    requires ValidDateTime(now) && 1 <= ym.month <= 12
    requires Holds(store.entries, DadosMesKey(ym), SeriesKind)
    modifies store
    ensures var computed := Series(DadosMes(db.compras, ym, now.date.day));
      dados == Recall(old(store.entries), DadosMesKey(ym), Stamp(now), computed).points
      && store.entries == Refreshed(old(store.entries), DadosMesKey(ym), Stamp(now), TtlMes, computed)
  {
    var key := DadosMesKey(ym);
    var hit := store.Get(key, Stamp(now));
    if hit.Some? {
      dados := hit.value.points;
    } else {
      dados := CalcularDadosMes(db.compras, ym, now.date.day);
      store.Put(key, Series(dados), Stamp(now) + TtlMes);
    }
  }

  method GerarDadosGeral(store: Store, db: Db, now: DateTime) returns (dados: seq<int>)
    requires ValidDateTime(now)
    requires Holds(store.entries, DadosGeralKey, SeriesKind)
    modifies store
    ensures var computed := Series(DadosGeral(db.compras, now.date));
      dados == Recall(old(store.entries), DadosGeralKey, Stamp(now), computed).points
      && store.entries == Refreshed(old(store.entries), DadosGeralKey, Stamp(now), TtlGeral, computed)
  {
    var hit := store.Get(DadosGeralKey, Stamp(now));
    if hit.Some? {
      dados := hit.value.points;
    } else {
      dados := CalcularDadosGeral(db.compras, now.date);
      store.Put(DadosGeralKey, Series(dados), Stamp(now) + TtlGeral);
    }
  }

  // ---- getStats ----

  /** The figures `getStats` shows, before presentation. */
  datatype Painel = Painel(
    totalHoje: int, totalMes: int, totalGeral: int,
    dadosHoje: seq<int>, dadosMes: seq<int>, dadosGeral: seq<int>)

  /** The figures as freshly computed from the table. */
  function Fresco(rows: seq<Compra>, now: DateTime): Painel
    requires ValidDateTime(now)
  {
    var hoje := now.date;
    Painel(TotalHoje(rows, hoje), TotalMes(rows, MonthOf(hoje)), TotalGeral(rows),
           UltimasHoras(rows, now), DadosMes(rows, MonthOf(hoje), hoje.day), DadosGeral(rows, hoje))
  }

  /** The keys of the three totals. */
  function TotaisKeys(hoje: Date): set<Key> {
    {TotalGeralKey, TotalMesKey(MonthOf(hoje)), TotalHojeKey(hoje)}
  }

  /** The keys of the three charts. */
  function GraficosKeys(hoje: Date): set<Key> {
    {DadosHojeKey(hoje), DadosMesKey(MonthOf(hoje)), DadosGeralKey}
  }

  /** Every key `getStats` reads on a given day. */
  function ReadKeys(hoje: Date): set<Key> {
    TotaisKeys(hoje) + GraficosKeys(hoje)
  }

  /** Every key the widget uses on a given day: those of `getStats` and the average's. */
  function WidgetKeys(hoje: Date): set<Key> {
    ReadKeys(hoje) + {MediaDiariaKey(MonthOf(hoje))}
  }

  predicate GraficosKinds(m: Entries, hoje: Date) {
    && Holds(m, DadosHojeKey(hoje), SeriesKind) && Holds(m, DadosMesKey(MonthOf(hoje)), SeriesKind)
    && Holds(m, DadosGeralKey, SeriesKind)
  }

  /** Each key `getStats` reads holds, if anything, a value of the kind `getStats` stores there. */
  predicate StatsKinds(m: Entries, hoje: Date) {
    && Holds(m, TotalGeralKey, AmountKind) && Holds(m, TotalMesKey(MonthOf(hoje)), AmountKind)
    && Holds(m, TotalHojeKey(hoje), AmountKind)
    && GraficosKinds(m, hoje)
  }

  /** What `getStats` shows when the cache holds m at `now`: each figure is the cached one if live, else fresh. */
  function Lido(m: Entries, rows: seq<Compra>, now: DateTime): Painel
    requires ValidDateTime(now) && StatsKinds(m, now.date)
  {
    var hoje, t := now.date, Stamp(now);
    var f := Fresco(rows, now);
    Painel(
      Recall(m, TotalHojeKey(hoje), t, Amount(f.totalHoje)).cents,
      Recall(m, TotalMesKey(MonthOf(hoje)), t, Amount(f.totalMes)).cents,
      Recall(m, TotalGeralKey, t, Amount(f.totalGeral)).cents,
      Recall(m, DadosHojeKey(hoje), t, Series(f.dadosHoje)).points,
      Recall(m, DadosMesKey(MonthOf(hoje)), t, Series(f.dadosMes)).points,
      Recall(m, DadosGeralKey, t, Series(f.dadosGeral)).points)
  }

  /** The three `Cache::remember` calls for the totals, in source order. */
  function TotaisRequests(rows: seq<Compra>, now: DateTime): seq<Request>
    requires ValidDateTime(now)
  {
    var f, hoje := Fresco(rows, now), now.date;
    [Request(TotalGeralKey, TtlGeral, Amount(f.totalGeral)),
     Request(TotalMesKey(MonthOf(hoje)), TtlMes, Amount(f.totalMes)),
     Request(TotalHojeKey(hoje), TtlHoje, Amount(f.totalHoje))]
  }

  /** The three `Cache::remember` calls for the charts, in source order. */
  function GraficosRequests(rows: seq<Compra>, now: DateTime): seq<Request>
    requires ValidDateTime(now)
  {
    var f, hoje := Fresco(rows, now), now.date;
    [Request(DadosHojeKey(hoje), TtlHoje, Series(f.dadosHoje)),
     Request(DadosMesKey(MonthOf(hoje)), TtlMes, Series(f.dadosMes)),
     Request(DadosGeralKey, TtlGeral, Series(f.dadosGeral))]
  }

  function StatsRequests(rows: seq<Compra>, now: DateTime): seq<Request>
    requires ValidDateTime(now)
  {
    TotaisRequests(rows, now) + GraficosRequests(rows, now)
  }

  lemma TotaisEmSequencia(m: Entries, rows: seq<Compra>, now: DateTime, t: int)
    requires ValidDateTime(now)
    ensures var r := TotaisRequests(rows, now);
      RememberAll(m, r, t)
      == Refreshed(Refreshed(Refreshed(m,
           r[0].key, t, r[0].ttl, r[0].computed), r[1].key, t, r[1].ttl, r[1].computed),
           r[2].key, t, r[2].ttl, r[2].computed)
    ensures RequestKeys(TotaisRequests(rows, now)) == TotaisKeys(now.date)
  {
    var r := TotaisRequests(rows, now);
    RememberAllStep(m, r, 1, t);
    RememberAllStep(m, r, 2, t);
    RememberAllStep(m, r, 3, t);
    assert r[..0] == [] && r[..3] == r;
  }

  lemma GraficosEmSequencia(m: Entries, rows: seq<Compra>, now: DateTime, t: int)
    requires ValidDateTime(now)
    ensures var r := GraficosRequests(rows, now);
      RememberAll(m, r, t)
      == Refreshed(Refreshed(Refreshed(m,
           r[0].key, t, r[0].ttl, r[0].computed), r[1].key, t, r[1].ttl, r[1].computed),
           r[2].key, t, r[2].ttl, r[2].computed)
    ensures RequestKeys(GraficosRequests(rows, now)) == GraficosKeys(now.date)
  {
    var r := GraficosRequests(rows, now);
    RememberAllStep(m, r, 1, t);
    RememberAllStep(m, r, 2, t);
    RememberAllStep(m, r, 3, t);
    assert r[..0] == [] && r[..3] == r;
  }

  /** Reading the totals leaves the chart keys as they were. */
  lemma TotaisPreservamGraficos(m: Entries, rows: seq<Compra>, now: DateTime, t: int)
    requires ValidDateTime(now)
    ensures var m1 := RememberAll(m, TotaisRequests(rows, now), t);
      forall k | k in GraficosKeys(now.date) :: (k in m1 <==> k in m) && (k in m1 ==> m1[k] == m[k])
  {
    var r := TotaisRequests(rows, now);
    TotaisEmSequencia(m, rows, now, t);
    forall k | k in GraficosKeys(now.date)
      ensures var m1 := RememberAll(m, r, t); (k in m1 <==> k in m) && (k in m1 ==> m1[k] == m[k])
    {
      RememberAllUntouched(m, r, t, k);
    }
  }

  /** The three totals of `getStats`, each through `Cache::remember` under its own key. */
  method BuscarTotais(store: Store, db: Db, now: DateTime) returns (totalGeral: int, totalMes: int, totalHoje: int)
    requires ValidDateTime(now) && StatsKinds(store.entries, now.date)
    modifies store
    ensures var p := Lido(old(store.entries), db.compras, now);
      totalGeral == p.totalGeral && totalMes == p.totalMes && totalHoje == p.totalHoje
    ensures store.entries == RememberAll(old(store.entries), TotaisRequests(db.compras, now), Stamp(now))
  {
    var t, rows, hoje := Stamp(now), db.compras, now.date;
    TotaisEmSequencia(store.entries, rows, now, t);
    totalGeral := RememberAmount(store, TotalGeralKey, TtlGeral, t, TotalGeral(rows));
    totalMes := RememberAmount(store, TotalMesKey(MonthOf(hoje)), TtlMes, t, TotalMes(rows, MonthOf(hoje)));
    totalHoje := RememberAmount(store, TotalHojeKey(hoje), TtlHoje, t, TotalHoje(rows, hoje));
  }

  /** The three charts of `getStats`, each through `Cache::remember` under its own key. */
  method BuscarGraficos(store: Store, db: Db, now: DateTime) returns (dadosHoje: seq<int>, dadosMes: seq<int>, dadosGeral: seq<int>)
    requires ValidDateTime(now) && GraficosKinds(store.entries, now.date)
    modifies store
    ensures var m, t, f, hoje := old(store.entries), Stamp(now), Fresco(db.compras, now), now.date;
      && dadosHoje == Recall(m, DadosHojeKey(hoje), t, Series(f.dadosHoje)).points
      && dadosMes == Recall(m, DadosMesKey(MonthOf(hoje)), t, Series(f.dadosMes)).points
      && dadosGeral == Recall(m, DadosGeralKey, t, Series(f.dadosGeral)).points
    ensures store.entries == RememberAll(old(store.entries), GraficosRequests(db.compras, now), Stamp(now))
  {
    GraficosEmSequencia(store.entries, db.compras, now, Stamp(now));
    dadosHoje := GerarDadosHoje(store, db, now);
    dadosMes := GerarDadosMesAtual(store, db, now, MonthOf(now.date));
    dadosGeral := GerarDadosGeral(store, db, now);
  }

  /** `getStats`: three cached totals and three cached charts. */
  method GetStats(store: Store, db: Db, now: DateTime) returns (p: Painel)
    requires ValidDateTime(now) && StatsKinds(store.entries, now.date)
    modifies store
    ensures p == Lido(old(store.entries), db.compras, now)
    ensures store.entries == RememberAll(old(store.entries), StatsRequests(db.compras, now), Stamp(now))
  {
    ghost var m0 := store.entries;
    TotaisPreservamGraficos(m0, db.compras, now, Stamp(now));
    var totalGeral, totalMes, totalHoje := BuscarTotais(store, db, now);
    var dadosHoje, dadosMes, dadosGeral := BuscarGraficos(store, db, now);
    RememberAllConcat(m0, TotaisRequests(db.compras, now), GraficosRequests(db.compras, now), Stamp(now));
    p := Painel(totalHoje, totalMes, totalGeral, dadosHoje, dadosMes, dadosGeral);
  }

  /** After `getStats`, only the keys it reads have changed, and each of them is live. */
  lemma StatsEstado(m: Entries, rows: seq<Compra>, now: DateTime, t: int)
    requires ValidDateTime(now)
    ensures ChangedOnly(m, RememberAll(m, StatsRequests(rows, now), t), ReadKeys(now.date))
    ensures AllLive(RememberAll(m, StatsRequests(rows, now), t), ReadKeys(now.date), t)
  {
    var a, b := TotaisRequests(rows, now), GraficosRequests(rows, now);
    RememberAllConcat(m, a, b, t);
    TotaisEmSequencia(m, rows, now, t);
    GraficosEmSequencia(m, rows, now, t);
    assert PositiveTtls(a + b) by {
      forall i | 0 <= i < |a + b| ensures (a + b)[i].ttl > 0 {
        if i < |a| {
          assert (a + b)[i] == a[i];
        } else {
          assert (a + b)[i] == b[i - |a|];
        }
      }
    }
    RememberAllFacts(m, a + b, t);
  }

  /** With nothing cached, `getStats` shows the fresh figures. */
  lemma LidoSemCache(m: Entries, rows: seq<Compra>, now: DateTime)
    requires ValidDateTime(now)
    requires forall k | k in ReadKeys(now.date) :: k !in m
    ensures Lido(m, rows, now) == Fresco(rows, now)
  {
    var hoje := now.date;
    assert TotalGeralKey in ReadKeys(hoje) && TotalMesKey(MonthOf(hoje)) in ReadKeys(hoje);
    assert TotalHojeKey(hoje) in ReadKeys(hoje) && DadosHojeKey(hoje) in ReadKeys(hoje);
    assert DadosMesKey(MonthOf(hoje)) in ReadKeys(hoje) && DadosGeralKey in ReadKeys(hoje);
  }

  /** The fresh figures agree with each other: the month chart has a point per day elapsed, the 12-month chart ends with the month's total. */
  lemma FrescoCoerente(rows: seq<Compra>, now: DateTime)
    requires ValidDateTime(now)
    requires forall i | 0 <= i < |rows| :: 1 <= rows[i].dataCompra.date.month <= 12
    ensures var f := Fresco(rows, now);
      && |f.dadosHoje| == 12 && |f.dadosGeral| == 12
      && |f.dadosMes| == now.date.day
      && f.dadosGeral[11] == f.totalMes
  {
    DadosMesTamanho(rows, now);
    DadosGeralSoma(rows, now.date);
  }

  /** The three headline values as displayed, today, month, all time; Money.ExibirReaisFiel reads each back. */
  function Exibicao(p: Painel): seq<string> {
    ExibirReais([p.totalHoje, p.totalMes, p.totalGeral])
  }

  // ---- invalidation ----

  /** `clearCache`: forgets the seven keys of the current day and month. */
  method ClearCache(store: Store, now: DateTime)
    modifies store
    ensures store.entries == old(store.entries) - WidgetKeys(now.date)
  {
    var hoje := now.date;
    var mes := MonthOf(hoje);
    ghost var m0, gone: set<Key> := store.entries, {};
    store.Forget(TotalGeralKey); ForgetStep(m0, gone, TotalGeralKey);
    gone := gone + {TotalGeralKey}; assert store.entries == m0 - gone;
    store.Forget(TotalMesKey(mes)); ForgetStep(m0, gone, TotalMesKey(mes));
    gone := gone + {TotalMesKey(mes)}; assert store.entries == m0 - gone;
    store.Forget(TotalHojeKey(hoje)); ForgetStep(m0, gone, TotalHojeKey(hoje));
    gone := gone + {TotalHojeKey(hoje)}; assert store.entries == m0 - gone;
    store.Forget(DadosHojeKey(hoje)); ForgetStep(m0, gone, DadosHojeKey(hoje));
    gone := gone + {DadosHojeKey(hoje)}; assert store.entries == m0 - gone;
    store.Forget(DadosMesKey(mes)); ForgetStep(m0, gone, DadosMesKey(mes));
    gone := gone + {DadosMesKey(mes)}; assert store.entries == m0 - gone;
    store.Forget(DadosGeralKey); ForgetStep(m0, gone, DadosGeralKey);
    gone := gone + {DadosGeralKey}; assert store.entries == m0 - gone;
    store.Forget(MediaDiariaKey(mes)); ForgetStep(m0, gone, MediaDiariaKey(mes));
    gone := gone + {MediaDiariaKey(mes)}; assert store.entries == m0 - gone;
    assert gone == WidgetKeys(hoje);
    ForgetSame(m0, gone, WidgetKeys(hoje));
  }

  /** `invalidateCacheOnNewCompra`: the same seven keys in a different order. */
  method InvalidateCacheOnNewCompra(store: Store, now: DateTime)
    modifies store
    ensures store.entries == old(store.entries) - WidgetKeys(now.date)
  {
    var hoje := now.date;
    var mes := MonthOf(hoje);
    ghost var m0, gone: set<Key> := store.entries, {};
    store.Forget(TotalHojeKey(hoje)); ForgetStep(m0, gone, TotalHojeKey(hoje));
    gone := gone + {TotalHojeKey(hoje)}; assert store.entries == m0 - gone;
    store.Forget(DadosHojeKey(hoje)); ForgetStep(m0, gone, DadosHojeKey(hoje));
    gone := gone + {DadosHojeKey(hoje)}; assert store.entries == m0 - gone;
    store.Forget(TotalMesKey(mes)); ForgetStep(m0, gone, TotalMesKey(mes));
    gone := gone + {TotalMesKey(mes)}; assert store.entries == m0 - gone;
    store.Forget(DadosMesKey(mes)); ForgetStep(m0, gone, DadosMesKey(mes));
    gone := gone + {DadosMesKey(mes)}; assert store.entries == m0 - gone;
    store.Forget(MediaDiariaKey(mes)); ForgetStep(m0, gone, MediaDiariaKey(mes));
    gone := gone + {MediaDiariaKey(mes)}; assert store.entries == m0 - gone;
    store.Forget(TotalGeralKey); ForgetStep(m0, gone, TotalGeralKey);
    gone := gone + {TotalGeralKey}; assert store.entries == m0 - gone;
    store.Forget(DadosGeralKey); ForgetStep(m0, gone, DadosGeralKey);
    gone := gone + {DadosGeralKey}; assert store.entries == m0 - gone;
    assert gone == WidgetKeys(hoje);
    ForgetSame(m0, gone, WidgetKeys(hoje));
  }

  /** After an invalidation, the next `getStats` and the next average show fresh figures, whatever the cache held. */
  lemma LidoAposInvalidar(m: Entries, rows: seq<Compra>, now: DateTime)
    requires ValidDateTime(now)
    ensures StatsKinds(m - WidgetKeys(now.date), now.date)
    ensures Lido(m - WidgetKeys(now.date), rows, now) == Fresco(rows, now)
    ensures MediaDiariaKey(MonthOf(now.date)) !in m - WidgetKeys(now.date)
  {
    LidoSemCache(m - WidgetKeys(now.date), rows, now);
  }

  /**
   * The keys are derived from the day of the invalidation, not from the
   * purchase's date: the daily keys of any other day, and the monthly keys
   * of any other month (the same month of another year included), stay cached.
   */
  lemma OutrosPeriodosMantidos(m: Entries, hoje: Date, outro: Date)
    requires outro != hoje
    ensures var m1 := m - WidgetKeys(hoje);
      && (TotalHojeKey(outro) in m ==> TotalHojeKey(outro) in m1 && m1[TotalHojeKey(outro)] == m[TotalHojeKey(outro)])
      && (DadosHojeKey(outro) in m ==> DadosHojeKey(outro) in m1 && m1[DadosHojeKey(outro)] == m[DadosHojeKey(outro)])
      && (MonthOf(outro) != MonthOf(hoje) && TotalMesKey(MonthOf(outro)) in m ==>
            TotalMesKey(MonthOf(outro)) in m1 && m1[TotalMesKey(MonthOf(outro))] == m[TotalMesKey(MonthOf(outro))])
      && (MonthOf(outro) != MonthOf(hoje) && DadosMesKey(MonthOf(outro)) in m ==>
            DadosMesKey(MonthOf(outro)) in m1 && m1[DadosMesKey(MonthOf(outro))] == m[DadosMesKey(MonthOf(outro))])
      && (MonthOf(outro) != MonthOf(hoje) && MediaDiariaKey(MonthOf(outro)) in m ==>
            MediaDiariaKey(MonthOf(outro)) in m1 && m1[MediaDiariaKey(MonthOf(outro))] == m[MediaDiariaKey(MonthOf(outro))])
  {
  }

  /** The month keys carry the year: the same month of two years never shares a cache string. */
  lemma MesComAno(mes: int, a: int, b: int)
    requires a != b
    ensures Render(TotalMesKey(YearMonth(a, mes))) != Render(TotalMesKey(YearMonth(b, mes)))
    ensures Render(DadosMesKey(YearMonth(a, mes))) != Render(DadosMesKey(YearMonth(b, mes)))
  {
    if Render(TotalMesKey(YearMonth(a, mes))) == Render(TotalMesKey(YearMonth(b, mes))) {
      RenderInjective(TotalMesKey(YearMonth(a, mes)), TotalMesKey(YearMonth(b, mes)));
    }
    if Render(DadosMesKey(YearMonth(a, mes))) == Render(DadosMesKey(YearMonth(b, mes))) {
      RenderInjective(DadosMesKey(YearMonth(a, mes)), DadosMesKey(YearMonth(b, mes)));
    }
  }
}
