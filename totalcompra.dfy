/**
 * The purchase-totals widget (`TotalCompraStatsOverview`). Shown on a
 * purchase's page it gives that purchase's item count and total; on the
 * dashboard it gives today's, this month's and all-time purchases and a
 * seven-day trend. It shares the purchase queries of ComprasMesChart, and
 * today's key with it; its month key carries no year.
 */
module TotalCompraStatsOverview {
  import opened Wrappers
  import opened Calendar
  import opened Money
  import opened Ledger
  import opened Keys
  import opened Cache
  import ComprasMesChart

  // ---- cache keys and TTLs (seconds) ----

  /** "compra_stats_id_{id}" */
  function StatsKey(id: int): Key {
    Key(CompraStatsId, IntArg(id))
  }

  /** "compras_total_hoje_{Y-m-d}": the very key ComprasMesChart uses for today's total. */
  function HojeKey(hoje: Date): Key {
    Key(ComprasTotalHoje, DateArg(hoje))
  }

  /** "compras_total_mes_{mes}": the month number alone, without the year. */
  function MesKey(mes: int): Key {
    Key(ComprasTotalMes, IntArg(mes))
  }

  /** "compras_trend_7d" */
  const TrendKey := Key(ComprasTrend, NoArg)

  const TtlStats := 5 * 60
  const TtlHoje := 5 * 60
  const TtlMes := 10 * 60
  const TtlTrend := 15 * 60

  /** The number of days of the trend. */
  const DiasTrend := 7

  /** What `getStats` returns, before presentation: one purchase's figures, or the general ones. */
  datatype Stats =
    | Individual(qtd: int, total: int)
    | Geral(totalHoje: int, totalMes: int, totalGeral: int, trend: seq<int>)

  // ---- one purchase ----

  function Qtd(): ItemCompra -> int {
    (r: ItemCompra) => r.qtd
  }

  /** `where('compra_id', id)` on itens_compras. */
  function DaCompra(id: int): ItemCompra -> bool {
    (r: ItemCompra) => r.compraId == id
  }

  /** `where('id', id)` on compras. */
  function ComId(id: int): Compra -> bool {
    (r: Compra) => r.id == id
  }

  /** The callback of `getIndividualCompraStats`: the purchase's item quantities summed, and its `valor_total`. */
  function CompraFresca(db: Db, id: int): Value {
    CompraTotals(SumWhere(db.itensCompras, DaCompra(id), Qtd()), ValueWhere(db.compras, ComId(id), ComprasMesChart.ValorTotal()))
  }

  /** The total is the `valor_total` of the first purchase row with that id. */
  lemma CompraFrescaTotal(db: Db, id: int, i: nat)
    requires i < |db.compras| && db.compras[i].id == id
    requires forall j | 0 <= j < i :: db.compras[j].id != id
    ensures CompraFresca(db, id).total == db.compras[i].valorTotal
  {
    ValueWhereFirst(db.compras, ComId(id), ComprasMesChart.ValorTotal(), i);
  }

  /** A purchase with no row and no items shows zeros, never a null. */
  lemma CompraFrescaAusente(db: Db, id: int)
    requires forall j | 0 <= j < |db.compras| :: db.compras[j].id != id
    requires forall j | 0 <= j < |db.itensCompras| :: db.itensCompras[j].compraId != id
    ensures CompraFresca(db, id) == CompraTotals(0, 0)
  {
    ValueWhereNone(db.compras, ComId(id), ComprasMesChart.ValorTotal());
    SumWhereNone(db.itensCompras, DaCompra(id), Qtd());
  }

  /** A new item adds its quantity to its own purchase's count and to no other's. */
  lemma CompraFrescaItem(db: Db, it: ItemCompra, id: int)
    ensures var db1 := db.(itensCompras := db.itensCompras + [it]);
      && CompraFresca(db1, id).qtd == CompraFresca(db, id).qtd + (if it.compraId == id then it.qtd else 0)
      && CompraFresca(db1, id).total == CompraFresca(db, id).total
  {
    SumWhereAppend(db.itensCompras, it, DaCompra(id), Qtd());
  }

  /** `getIndividualCompraStats`: the purchase's figures, cached for 5 minutes under its id. */
  method GetIndividualCompraStats(store: Store, db: Db, now: DateTime, id: int) returns (s: Stats)
    requires ValidDateTime(now) && Holds(store.entries, StatsKey(id), CompraKind)
    modifies store
    ensures var v := Recall(old(store.entries), StatsKey(id), Stamp(now), CompraFresca(db, id));
      s == Individual(v.qtd, v.total)
    ensures store.entries == Refreshed(old(store.entries), StatsKey(id), Stamp(now), TtlStats, CompraFresca(db, id))
  {
    var v := store.Remember(StatsKey(id), TtlStats, Stamp(now), CompraFresca(db, id));
    s := Individual(v.qtd, v.total);
  }

  // ---- the seven-day trend ----

  /** Point j is the purchases of the date `subDays(6 - j)`: oldest first, today last. */
  function Trend(rows: seq<Compra>, hoje: Date): seq<int>
    requires ValidDate(hoje)
  {
    seq(DiasTrend, j => ComprasMesChart.TotalHoje(rows, DayPoint(hoje, DiasTrend, j)))
  }

  /** The `for ($i = 6; $i >= 0; $i--)` loop of `getTrendSeteDias`. */
  method CalcularTrend(rows: seq<Compra>, hoje: Date) returns (dados: seq<int>)
    requires ValidDate(hoje)
    ensures dados == Trend(rows, hoje)
  {
    dados := [];
    var i := 6;
    while i >= 0
      invariant -1 <= i <= 6
      invariant dados == Trend(rows, hoje)[..6 - i]
    {
      var data := ShiftDays(hoje, -i);
      dados := dados + [SumWhere(rows, ComprasMesChart.NaData(data), ComprasMesChart.ValorTotal())];
      i := i - 1;
    }
  }

  /** The trend ends with today's purchases, as today's total counts them. */
  lemma TrendTerminaHoje(rows: seq<Compra>, hoje: Date)
    requires ValidDate(hoje)
    ensures |Trend(rows, hoje)| == DiasTrend
    ensures Trend(rows, hoje)[DiasTrend - 1] == ComprasMesChart.TotalHoje(rows, hoje)
  {
    DayPointOrder(hoje, DiasTrend, 0);
  }

  /** `getTrendSeteDias`; its key carries no date, so a trend stored before midnight is still served after it. */
  method GetTrendSeteDias(store: Store, db: Db, now: DateTime) returns (dados: seq<int>)
    requires ValidDateTime(now) && Holds(store.entries, TrendKey, SeriesKind)
    modifies store
    ensures var computed := Series(Trend(db.compras, now.date));
      dados == Recall(old(store.entries), TrendKey, Stamp(now), computed).points
      && store.entries == Refreshed(old(store.entries), TrendKey, Stamp(now), TtlTrend, computed)
  {
    var hit := store.Get(TrendKey, Stamp(now));
    if hit.Some? {
      dados := hit.value.points;
    } else {
      dados := CalcularTrend(db.compras, now.date);
      store.Put(TrendKey, Series(dados), Stamp(now) + TtlTrend);
    }
  }

  // ---- the general figures ----

  /** The general figures as freshly computed; the month is filtered by month and the current year. */
  function GeralFresco(rows: seq<Compra>, now: DateTime): Stats
    requires ValidDateTime(now)
  {
    Geral(ComprasMesChart.TotalHoje(rows, now.date), ComprasMesChart.TotalMes(rows, MonthOf(now.date)),
          ComprasMesChart.TotalGeral(rows), Trend(rows, now.date))
  }

  predicate GeralKinds(m: Entries, hoje: Date) {
    Holds(m, HojeKey(hoje), AmountKind) && Holds(m, MesKey(hoje.month), AmountKind) && Holds(m, TrendKey, SeriesKind)
  }

  /** What the general figures show when the cache holds m; the all-time total is never cached. */
  function LidoGeral(m: Entries, rows: seq<Compra>, now: DateTime): Stats
    requires ValidDateTime(now) && GeralKinds(m, now.date)
  {
    var t, f := Stamp(now), GeralFresco(rows, now);
    Geral(Recall(m, HojeKey(now.date), t, Amount(f.totalHoje)).cents,
          Recall(m, MesKey(now.date.month), t, Amount(f.totalMes)).cents,
          f.totalGeral,
          Recall(m, TrendKey, t, Series(f.trend)).points)
  }

  /** The three `Cache::remember` calls of the general figures, in the order they run. */
  function GeralRequests(rows: seq<Compra>, now: DateTime): seq<Request>
    requires ValidDateTime(now)
  {
    var f := GeralFresco(rows, now);
    [Request(HojeKey(now.date), TtlHoje, Amount(f.totalHoje)),
     Request(MesKey(now.date.month), TtlMes, Amount(f.totalMes)),
     Request(TrendKey, TtlTrend, Series(f.trend))]
  }

  function GeralKeys(hoje: Date): set<Key> {
    {HojeKey(hoje), MesKey(hoje.month), TrendKey}
  }

  lemma GeralEmSequencia(m: Entries, rows: seq<Compra>, now: DateTime, t: int)
    requires ValidDateTime(now)
    ensures var r := GeralRequests(rows, now);
      RememberAll(m, r, t)
      == Refreshed(Refreshed(Refreshed(m,
           r[0].key, t, r[0].ttl, r[0].computed), r[1].key, t, r[1].ttl, r[1].computed),
           r[2].key, t, r[2].ttl, r[2].computed)
    ensures RequestKeys(GeralRequests(rows, now)) == GeralKeys(now.date)
  {
    var r := GeralRequests(rows, now);
    RememberAllStep(m, r, 1, t);
    RememberAllStep(m, r, 2, t);
    RememberAllStep(m, r, 3, t);
    assert r[..0] == [] && r[..3] == r;
  }

  /** `getGeneralCompraStats`: two cached totals, the cached trend, and the all-time total queried afresh. */
  method GetGeneralCompraStats(store: Store, db: Db, now: DateTime) returns (s: Stats)
    requires ValidDateTime(now) && GeralKinds(store.entries, now.date)
    modifies store
    ensures s == LidoGeral(old(store.entries), db.compras, now)
    ensures store.entries == RememberAll(old(store.entries), GeralRequests(db.compras, now), Stamp(now))
  {
    var t, rows, hoje := Stamp(now), db.compras, now.date;
    GeralEmSequencia(store.entries, rows, now, t);
    var totalHoje := RememberAmount(store, HojeKey(hoje), TtlHoje, t, ComprasMesChart.TotalHoje(rows, hoje));
    var totalMes := RememberAmount(store, MesKey(hoje.month), TtlMes, t, ComprasMesChart.TotalMes(rows, MonthOf(hoje)));
    var trend := GetTrendSeteDias(store, db, now);
    s := Geral(totalHoje, totalMes, ComprasMesChart.TotalGeral(rows), trend);
  }

  // ---- getStats ----

  /** The keys `getStats` reads, by whether a purchase record is shown. */
  predicate StatsKinds(m: Entries, hoje: Date, record: Option<Compra>) {
    match record
    case Some(c) => Holds(m, StatsKey(c.id), CompraKind)
    case None => GeralKinds(m, hoje)
  }

  /** What `getStats` shows: the record's figures when there is one, the general figures otherwise. */
  function Lido(m: Entries, db: Db, now: DateTime, record: Option<Compra>): Stats
    requires ValidDateTime(now) && StatsKinds(m, now.date, record)
  {
    match record
    case Some(c) =>
      var v := Recall(m, StatsKey(c.id), Stamp(now), CompraFresca(db, c.id));
      Individual(v.qtd, v.total)
    case None => LidoGeral(m, db.compras, now)
  }

  /** `getStats`: dispatches on the optional record. */
  method GetStats(store: Store, db: Db, now: DateTime, record: Option<Compra>) returns (s: Stats)
    requires ValidDateTime(now) && StatsKinds(store.entries, now.date, record)
    modifies store
    ensures s == Lido(old(store.entries), db, now, record)
    ensures record.Some? ==>
      s.Individual? && store.entries
        == Refreshed(old(store.entries), StatsKey(record.value.id), Stamp(now), TtlStats, CompraFresca(db, record.value.id))
    ensures record.None? ==>
      s.Geral? && store.entries == RememberAll(old(store.entries), GeralRequests(db.compras, now), Stamp(now))
  {
    if record.Some? {
      s := GetIndividualCompraStats(store, db, now, record.value.id);
    } else {
      s := GetGeneralCompraStats(store, db, now);
    }
  }

  /** The all-time total is the fresh sum whatever the cache holds. */
  lemma TotalGeralSemCache(m: Entries, rows: seq<Compra>, now: DateTime)
    requires ValidDateTime(now) && GeralKinds(m, now.date)
    ensures LidoGeral(m, rows, now).totalGeral == ComprasMesChart.TotalGeral(rows)
  {
  }

  /** With nothing cached, the general figures are the fresh ones. */
  lemma LidoGeralSemCache(m: Entries, rows: seq<Compra>, now: DateTime)
    requires ValidDateTime(now)
    requires forall k | k in GeralKeys(now.date) :: k !in m
    ensures LidoGeral(m, rows, now) == GeralFresco(rows, now)
  {
    assert HojeKey(now.date) in GeralKeys(now.date) && MesKey(now.date.month) in GeralKeys(now.date);
    assert TrendKey in GeralKeys(now.date);
  }

  // ---- keys shared with, and missed by, ComprasMesChart ----

  /**
   * Today's key and callback are those of ComprasMesChart: right after that
   * widget's `getStats`, this one shows the same today's total it showed.
   */
  lemma HojeCompartilhado(m: Entries, rows: seq<Compra>, now: DateTime)
    requires ValidDateTime(now) && ComprasMesChart.StatsKinds(m, now.date)
    ensures HojeKey(now.date) == ComprasMesChart.TotalHojeKey(now.date)
    ensures var t := Stamp(now);
      var m1 := RememberAll(m, ComprasMesChart.StatsRequests(rows, now), t);
      Recall(m1, HojeKey(now.date), t, Amount(ComprasMesChart.TotalHoje(rows, now.date)))
      == Amount(ComprasMesChart.Lido(m, rows, now).totalHoje)
  {
    var t, key := Stamp(now), HojeKey(now.date);
    var a, b := ComprasMesChart.TotaisRequests(rows, now), ComprasMesChart.GraficosRequests(rows, now);
    ComprasMesChart.TotaisEmSequencia(m, rows, now, t);
    ComprasMesChart.GraficosEmSequencia(m, rows, now, t);
    RememberAllConcat(m, a, b, t);
    RememberAllUntouched(RememberAll(m, a, t), b, t, key);
  }

  /**
   * The year-less month key is not among the keys ComprasMesChart's
   * invalidation drops, on any day: a new purchase leaves this widget's
   * month total cached until its TTL runs out.
   */
  lemma MesNaoInvalidado(m: Entries, hoje: Date, mes: int)
    ensures MesKey(mes) !in ComprasMesChart.WidgetKeys(hoje)
    ensures MesKey(mes) in m ==>
      MesKey(mes) in m - ComprasMesChart.WidgetKeys(hoje) && (m - ComprasMesChart.WidgetKeys(hoje))[MesKey(mes)] == m[MesKey(mes)]
  {
  }

  /** The year-less month key never renders like ComprasMesChart's "{ano}_{mes}" key. */
  lemma MesKeyDistinta(mes: int, ym: YearMonth)
    ensures Render(MesKey(mes)) != Render(ComprasMesChart.TotalMesKey(ym))
  {
    RenderDistinct(MesKey(mes), ComprasMesChart.TotalMesKey(ym));
  }

  // ---- presentation ----

  /** The individual figures as displayed: `number_format` of the count, "R$ " and `number_format` of the total. */
  function ExibicaoIndividual(qtd: int, total: int): seq<string> {
    [NumberFormat(qtd), FormatarReais(total)]
  }

  lemma ExibicaoIndividualFiel(qtd: int, total: int)
    ensures ReadValor(ExibicaoIndividual(qtd, total)[0]) == qtd
    ensures ReadValor(ExibicaoIndividual(qtd, total)[1]) == total
  {
    FormatarReaisRoundTrip(qtd);
    ReadValorLabel("R$ ", NumberFormat(qtd));
    FormatarReaisRoundTrip(total);
  }
}
