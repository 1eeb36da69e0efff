/**
 * The sales-totals widget (`TotalVendaStatsOverview`): all-time, today's
 * and this month's point-of-sale sales (`venda_p_d_v_s`, summed by
 * `valor_total_desconto` and dated by `data_venda`), and a seven-day trend
 * that reads the `vendas` table instead. Its optional record is never read.
 */
module TotalVendaStatsOverview {
  import opened Calendar
  import opened Money
  import opened Ledger
  import opened Keys
  import opened Cache

  // ---- cache keys and TTLs (seconds) ----

  /** "vendas_total_geral" */
  const GeralKey := Key(VendasTotalGeral, NoArg)
  /** "vendas_trend_7d_dash" */
  const TrendKey := Key(VendasTrend, NoArg)

  /** "vendas_hoje_{Y-m-d}" */
  function HojeKey(hoje: Date): Key {
    Key(VendasHoje, DateArg(hoje))
  }

  /** "vendas_mes_{ano}_{mes}" */
  function MesKey(ym: YearMonth): Key {
    Key(VendasMes, MonthArg(ym))
  }

  const TtlGeral := 30 * 60
  const TtlHoje := 5 * 60
  const TtlMes := 10 * 60
  const TtlTrend := 15 * 60

  /** The number of days of the trend. */
  const DiasTrend := 7

  // ---- queries ----

  function Desconto(): VendaPdv -> int {
    (r: VendaPdv) => r.valorTotalDesconto
  }

  function Todas(): VendaPdv -> bool {
    (r: VendaPdv) => true
  }

  /** `whereDate('data_venda', d)` on venda_p_d_v_s. */
  function NaData(d: Date): VendaPdv -> bool {
    (r: VendaPdv) => r.dataVenda == d
  }

  /** `whereMonth('data_venda', mes)->whereYear('data_venda', ano)` on venda_p_d_v_s. */
  function NoMes(ym: YearMonth): VendaPdv -> bool {
    (r: VendaPdv) => r.dataVenda.month == ym.month && r.dataVenda.year == ym.year
  }

  function VendaDesconto(): Venda -> int {
    (r: Venda) => r.valorTotalDesconto
  }

  /** `whereDate('data_venda', d)` on vendas. */
  function VendaNaData(d: Date): Venda -> bool {
    (r: Venda) => r.dataVenda == d
  }

  function TotalGeral(pdvs: seq<VendaPdv>): int {
    SumWhere(pdvs, Todas(), Desconto())
  }

  function TotalHoje(pdvs: seq<VendaPdv>, hoje: Date): int {
    SumWhere(pdvs, NaData(hoje), Desconto())
  }

  function TotalMes(pdvs: seq<VendaPdv>, ym: YearMonth): int {
    SumWhere(pdvs, NoMes(ym), Desconto())
  }

  /** One day of the trend, read from `vendas`. */
  function VendasNoDia(vendas: seq<Venda>, d: Date): int {
    SumWhere(vendas, VendaNaData(d), VendaDesconto())
  }

  // ---- the seven-day trend ----

  /** Point j is the date `subDays(6 - j)`: oldest first, today last. */
  function Trend(vendas: seq<Venda>, hoje: Date): seq<int>
    requires ValidDate(hoje)
  {
    seq(DiasTrend, j => VendasNoDia(vendas, DayPoint(hoje, DiasTrend, j)))
  }

  /** The `for ($i = 6; $i >= 0; $i--)` loop of `getTrendUltimos7Dias`. */
  method CalcularTrend(vendas: seq<Venda>, hoje: Date) returns (dados: seq<int>)
    requires ValidDate(hoje)
    ensures dados == Trend(vendas, hoje)
  {
    dados := [];
    var i := 6;
    while i >= 0
      invariant -1 <= i <= 6
      invariant dados == Trend(vendas, hoje)[..6 - i]
    {
      var data := ShiftDays(hoje, -i);
      dados := dados + [SumWhere(vendas, VendaNaData(data), VendaDesconto())];
      i := i - 1;
    }
  }

  /** `getTrendUltimos7Dias`; its key carries no date, so a trend stored before midnight is still served after it. */
  method GetTrendUltimos7Dias(store: Store, db: Db, now: DateTime) returns (dados: seq<int>)
    requires ValidDateTime(now) && Holds(store.entries, TrendKey, SeriesKind)
    modifies store
    ensures var computed := Series(Trend(db.vendas, now.date));
      dados == Recall(old(store.entries), TrendKey, Stamp(now), computed).points
      && store.entries == Refreshed(old(store.entries), TrendKey, Stamp(now), TtlTrend, computed)
  {
    var hit := store.Get(TrendKey, Stamp(now));
    if hit.Some? {
      dados := hit.value.points;
    } else {
      dados := CalcularTrend(db.vendas, now.date);
      store.Put(TrendKey, Series(dados), Stamp(now) + TtlTrend);
    }
  }

  // ---- getStats ----

  /** The figures `getStats` shows, before presentation. */
  datatype Painel = Painel(totalGeral: int, totalHoje: int, totalMes: int, trend: seq<int>)

  /** The figures as freshly computed: the totals from venda_p_d_v_s, the trend from vendas. */
  function Fresco(db: Db, hoje: Date): Painel
    requires ValidDate(hoje)
  {
    Painel(TotalGeral(db.vendaPdvs), TotalHoje(db.vendaPdvs, hoje), TotalMes(db.vendaPdvs, MonthOf(hoje)),
           Trend(db.vendas, hoje))
  }

  function ReadKeys(hoje: Date): set<Key> {
    {GeralKey, HojeKey(hoje), MesKey(MonthOf(hoje)), TrendKey}
  }

  predicate StatsKinds(m: Entries, hoje: Date) {
    && Holds(m, GeralKey, AmountKind) && Holds(m, HojeKey(hoje), AmountKind)
    && Holds(m, MesKey(MonthOf(hoje)), AmountKind) && Holds(m, TrendKey, SeriesKind)
  }

  /** What `getStats` shows when the cache holds m at `now`: each figure is the cached one if live, else fresh. */
  function Lido(m: Entries, db: Db, now: DateTime): Painel
    requires ValidDateTime(now) && StatsKinds(m, now.date)
  {
    var hoje, t := now.date, Stamp(now);
    var f := Fresco(db, hoje);
    Painel(
      Recall(m, GeralKey, t, Amount(f.totalGeral)).cents,
      Recall(m, HojeKey(hoje), t, Amount(f.totalHoje)).cents,
      Recall(m, MesKey(MonthOf(hoje)), t, Amount(f.totalMes)).cents,
      Recall(m, TrendKey, t, Series(f.trend)).points)
  }

  /** The four `Cache::remember` calls of `getStats`, in the order they run. */
  function StatsRequests(db: Db, hoje: Date): seq<Request>
    requires ValidDate(hoje)
  {
    var f := Fresco(db, hoje);
    [Request(GeralKey, TtlGeral, Amount(f.totalGeral)),
     Request(HojeKey(hoje), TtlHoje, Amount(f.totalHoje)),
     Request(MesKey(MonthOf(hoje)), TtlMes, Amount(f.totalMes)),
     Request(TrendKey, TtlTrend, Series(f.trend))]
  }

  lemma StatsEmSequencia(m: Entries, db: Db, hoje: Date, t: int)
    requires ValidDate(hoje)
    ensures var r := StatsRequests(db, hoje);
      RememberAll(m, r, t)
      == Refreshed(Refreshed(Refreshed(Refreshed(m,
           r[0].key, t, r[0].ttl, r[0].computed), r[1].key, t, r[1].ttl, r[1].computed),
           r[2].key, t, r[2].ttl, r[2].computed), r[3].key, t, r[3].ttl, r[3].computed)
    ensures RequestKeys(StatsRequests(db, hoje)) == ReadKeys(hoje)
  {
    var r := StatsRequests(db, hoje);
    RememberAllStep(m, r, 1, t);
    RememberAllStep(m, r, 2, t);
    RememberAllStep(m, r, 3, t);
    RememberAllStep(m, r, 4, t);
    assert r[..0] == [] && r[..4] == r;
  }

  /** `getStats`: three cached totals and the cached trend; `$record` plays no part. */
  method GetStats(store: Store, db: Db, now: DateTime) returns (p: Painel)
    requires ValidDateTime(now) && StatsKinds(store.entries, now.date)
    modifies store
    ensures p == Lido(old(store.entries), db, now)
    ensures store.entries == RememberAll(old(store.entries), StatsRequests(db, now.date), Stamp(now))
  {
    var t, pdvs, hoje := Stamp(now), db.vendaPdvs, now.date;
    StatsEmSequencia(store.entries, db, hoje, t);
    var totalGeral := RememberAmount(store, GeralKey, TtlGeral, t, TotalGeral(pdvs));
    var totalHoje := RememberAmount(store, HojeKey(hoje), TtlHoje, t, TotalHoje(pdvs, hoje));
    var totalMes := RememberAmount(store, MesKey(MonthOf(hoje)), TtlMes, t, TotalMes(pdvs, MonthOf(hoje)));
    var trend := GetTrendUltimos7Dias(store, db, now);
    p := Painel(totalGeral, totalHoje, totalMes, trend);
  }

  /** With nothing cached, `getStats` shows the fresh figures. */
  lemma LidoSemCache(m: Entries, db: Db, now: DateTime)
    requires ValidDateTime(now)
    requires forall k | k in ReadKeys(now.date) :: k !in m
    ensures Lido(m, db, now) == Fresco(db, now.date)
  {
    var hoje := now.date;
    assert GeralKey in ReadKeys(hoje) && HojeKey(hoje) in ReadKeys(hoje);
    assert MesKey(MonthOf(hoje)) in ReadKeys(hoje) && TrendKey in ReadKeys(hoje);
  }

  /** The trend ends with today's sales, as recorded in `vendas`. */
  lemma TrendTerminaHoje(vendas: seq<Venda>, hoje: Date)
    requires ValidDate(hoje)
    ensures |Trend(vendas, hoje)| == DiasTrend
    ensures Trend(vendas, hoje)[DiasTrend - 1] == VendasNoDia(vendas, hoje)
  {
    DayPointOrder(hoje, DiasTrend, 0);
  }

  /**
   * The totals and the trend read different tables: a point-of-sale sale
   * moves the totals but not the trend, and a row of `vendas` moves the
   * trend but not the totals.
   */
  lemma TabelasSeparadas(db: Db, p: VendaPdv, v: Venda, hoje: Date)
    requires ValidDate(hoje)
    ensures var f0, f1 := Fresco(db, hoje), Fresco(db.(vendaPdvs := db.vendaPdvs + [p]), hoje);
      && f1.trend == f0.trend
      && f1.totalGeral == f0.totalGeral + p.valorTotalDesconto
      && f1.totalHoje == f0.totalHoje + (if p.dataVenda == hoje then p.valorTotalDesconto else 0)
    ensures var f0, f2 := Fresco(db, hoje), Fresco(db.(vendas := db.vendas + [v]), hoje);
      && f2.totalGeral == f0.totalGeral && f2.totalHoje == f0.totalHoje && f2.totalMes == f0.totalMes
      && f2.trend[DiasTrend - 1] == f0.trend[DiasTrend - 1] + (if v.dataVenda == hoje then v.valorTotalDesconto else 0)
  {
    SumWhereAppend(db.vendaPdvs, p, Todas(), Desconto());
    SumWhereAppend(db.vendaPdvs, p, NaData(hoje), Desconto());
    TrendTerminaHoje(db.vendas, hoje);
    TrendTerminaHoje(db.vendas + [v], hoje);
    SumWhereAppend(db.vendas, v, VendaNaData(hoje), VendaDesconto());
  }

  /** The three headline values as displayed, today, month, all time; Money.ExibirReaisFiel reads each back. */
  function Exibicao(p: Painel): seq<string> {
    ExibirReais([p.totalHoje, p.totalMes, p.totalGeral])
  }
}
