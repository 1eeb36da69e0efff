/**
 * The per-sale widget declared in VendaStatsOverview.php (whose class is
 * also named `TotalVendaStatsOverview`): for the sale being shown, its item
 * count, gross total and discounted total, cached for five minutes under the
 * sale's id; with no sale it shows nothing and touches no cache.
 */
module VendaStatsOverview {
  import opened Wrappers
  import opened Calendar
  import opened Text
  import opened Money
  import opened Ledger
  import opened Keys
  import opened Cache

  /** "venda_stats_overview_{id}" */
  function StatsKey(id: int): Key {
    Key(VendaStatsOverview, IntArg(id))
  }

  const TtlStats := 5 * 60

  // ---- queries ----

  function Qtd(): ItemVenda -> int {
    (r: ItemVenda) => r.qtd
  }

  /** `where('venda_id', id)` on itens_vendas. */
  function DaVenda(id: int): ItemVenda -> bool {
    (r: ItemVenda) => r.vendaId == id
  }

  /** `where('id', id)` on vendas. */
  function ComId(id: int): Venda -> bool {
    (r: Venda) => r.id == id
  }

  function ValorTotal(): Venda -> int {
    (r: Venda) => r.valorTotal
  }

  function ValorTotalDesconto(): Venda -> int {
    (r: Venda) => r.valorTotalDesconto
  }

  /** The callback of `Cache::remember`: summed item quantities, then `valor_total` and `valor_total_desconto` of the sale. */
  function VendaFresca(db: Db, id: int): Value {
    VendaTotals(SumWhere(db.itensVendas, DaVenda(id), Qtd()),
                ValueWhere(db.vendas, ComId(id), ValorTotal()),
                ValueWhere(db.vendas, ComId(id), ValorTotalDesconto()))
  }

  /** Both totals come from the same row: the first sale row with that id. */
  lemma VendaFrescaValores(db: Db, id: int, i: nat)
    requires i < |db.vendas| && db.vendas[i].id == id
    requires forall j | 0 <= j < i :: db.vendas[j].id != id
    ensures VendaFresca(db, id).valorBruto == db.vendas[i].valorTotal
    ensures VendaFresca(db, id).valorLiquido == db.vendas[i].valorTotalDesconto
  {
    ValueWhereFirst(db.vendas, ComId(id), ValorTotal(), i);
    ValueWhereFirst(db.vendas, ComId(id), ValorTotalDesconto(), i);
  }

  /** A sale with no row and no items shows zeros (the `?? 0` fallbacks), never a null. */
  lemma VendaFrescaAusente(db: Db, id: int)
    requires forall j | 0 <= j < |db.vendas| :: db.vendas[j].id != id
    requires forall j | 0 <= j < |db.itensVendas| :: db.itensVendas[j].vendaId != id
    ensures VendaFresca(db, id) == VendaTotals(0, 0, 0)
  {
    ValueWhereNone(db.vendas, ComId(id), ValorTotal());
    ValueWhereNone(db.vendas, ComId(id), ValorTotalDesconto());
    SumWhereNone(db.itensVendas, DaVenda(id), Qtd());
  }

  /** A new item adds its quantity to its own sale's count, to no other's, and leaves both totals alone. */
  lemma VendaFrescaItem(db: Db, it: ItemVenda, id: int)
    ensures var f0, f1 := VendaFresca(db, id), VendaFresca(db.(itensVendas := db.itensVendas + [it]), id);
      && f1.qtdItens == f0.qtdItens + (if it.vendaId == id then it.qtd else 0)
      && f1.valorBruto == f0.valorBruto && f1.valorLiquido == f0.valorLiquido
  {
    SumWhereAppend(db.itensVendas, it, DaVenda(id), Qtd());
  }

  // ---- getStats ----

  /** The three figures of a sale, before presentation. */
  datatype Painel = Painel(qtdItens: int, valorBruto: int, valorLiquido: int)

  /** The figures `getStats` shows for the sale when the cache holds m at `now`. */
  function Lido(m: Entries, db: Db, now: DateTime, id: int): Painel
    requires ValidDateTime(now) && Holds(m, StatsKey(id), VendaKind)
  {
    var v := Recall(m, StatsKey(id), Stamp(now), VendaFresca(db, id));
    Painel(v.qtdItens, v.valorBruto, v.valorLiquido)
  }

  /** The cache shape `getStats` needs: only the shown sale's key is read. */
  predicate StatsKinds(m: Entries, record: Option<Venda>) {
    record.Some? ==> Holds(m, StatsKey(record.value.id), VendaKind)
  }

  /**
   * `getStats`: nothing for no record, with the cache untouched; otherwise the
   * sale's figures, cached under its id.
   */
  method GetStats(store: Store, db: Db, now: DateTime, record: Option<Venda>) returns (s: Option<Painel>)
    requires ValidDateTime(now) && StatsKinds(store.entries, record)
    modifies store
    ensures record.None? ==> s.None? && store.entries == old(store.entries)
    ensures record.Some? ==>
      s == Some(Lido(old(store.entries), db, now, record.value.id))
      && store.entries == Refreshed(old(store.entries), StatsKey(record.value.id), Stamp(now), TtlStats,
                                    VendaFresca(db, record.value.id))
  {
    if record.None? {
      return None;
    }
    var id := record.value.id;
    var v := store.Remember(StatsKey(id), TtlStats, Stamp(now), VendaFresca(db, id));
    s := Some(Painel(v.qtdItens, v.valorBruto, v.valorLiquido));
  }

  /** With the sale's key absent, `getStats` shows the fresh figures. */
  lemma LidoSemCache(m: Entries, db: Db, now: DateTime, id: int)
    requires ValidDateTime(now) && StatsKey(id) !in m
    ensures var f := VendaFresca(db, id);
      Lido(m, db, now, id) == Painel(f.qtdItens, f.valorBruto, f.valorLiquido)
  {
  }

  // ---- presentation ----

  /** PHP's `(int)` cast of the summed quantity (in hundredths): truncation toward zero. */
  function QtdInteira(qtd: int): int {
    if qtd >= 0 then qtd / 100 else -((-qtd) / 100)
  }

  /** The cast drops the fraction toward zero and keeps the sign. */
  lemma QtdInteiraTrunca(qtd: int)
    ensures Abs(QtdInteira(qtd)) * 100 <= Abs(qtd) < (Abs(QtdInteira(qtd)) + 1) * 100
    ensures qtd >= 0 ==> QtdInteira(qtd) >= 0
    ensures qtd < 0 ==> QtdInteira(qtd) <= 0
    ensures QtdInteira(-qtd) == -QtdInteira(qtd)
  {
  }

  /** The three values as displayed: the item count as an integer, the two totals as "R$ " amounts. */
  function Exibicao(p: Painel): seq<string> {
    [IntToString(QtdInteira(p.qtdItens)), FormatarReais(p.valorBruto), FormatarReais(p.valorLiquido)]
  }

  lemma ExibicaoFiel(p: Painel)
    ensures |Exibicao(p)| == 3
    ensures QtdInteira(p.qtdItens) >= 0 ==> DigitsValue(Exibicao(p)[0]) == QtdInteira(p.qtdItens)
    ensures QtdInteira(p.qtdItens) < 0 ==> DigitsValue(Exibicao(p)[0][1..]) == -QtdInteira(p.qtdItens)
    ensures ReadValor(Exibicao(p)[1]) == p.valorBruto && ReadValor(Exibicao(p)[2]) == p.valorLiquido
  {
    FormatarReaisRoundTrip(p.valorBruto);
    FormatarReaisRoundTrip(p.valorLiquido);
  }

  // ---- clearCache ----

  /** `clearCache($vendaId)`: drops the one sale's cached figures. */
  method ClearCache(store: Store, vendaId: int)
    modifies store
    ensures store.entries == old(store.entries) - {StatsKey(vendaId)}
  {
    store.Forget(StatsKey(vendaId));
  }

  /** After `clearCache`, the sale's figures are fresh, and every other sale keeps what it had cached. */
  lemma LidoAposLimpar(m: Entries, db: Db, now: DateTime, id: int, outra: int)
    requires ValidDateTime(now) && id != outra && Holds(m, StatsKey(outra), VendaKind)
    ensures var f := VendaFresca(db, id);
      Lido(m - {StatsKey(id)}, db, now, id) == Painel(f.qtdItens, f.valorBruto, f.valorLiquido)
    ensures Lido(m - {StatsKey(id)}, db, now, outra) == Lido(m, db, now, outra)
    ensures Render(StatsKey(id)) != Render(StatsKey(outra))
  {
    RenderDistinct(StatsKey(id), StatsKey(outra));
  }
}
