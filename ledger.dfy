/**
 * The tables the widgets query, as sequences of rows, and the two query
 * shapes they use: `->where(...)->sum(column) ?? 0` (SumWhere) and
 * `->where(...)->value(column) ?? 0` (ValueWhere). A `where` clause is a
 * row predicate; chained clauses are combined with And. Amounts and
 * quantities are integers in hundredths (cents).
 */
module Ledger {
  import opened Calendar

  /** A row of `fluxo_caixas`: signed amount, positive for credits and negative for debits. */
  datatype FluxoCaixa = FluxoCaixa(createdAt: DateTime, valor: int)

  /** A row of `compras`. */
  datatype Compra = Compra(id: int, dataCompra: DateTime, valorTotal: int)

  /** A row of `itens_compras`. */
  datatype ItemCompra = ItemCompra(compraId: int, qtd: int)

  /** A row of `contas_pagars`; status 0 means still open. */
  datatype ContaPagar = ContaPagar(status: int, dataVencimento: Date, valorParcela: int)

  /** A row of `venda_p_d_v_s` (point-of-sale sales). */
  datatype VendaPdv = VendaPdv(dataVenda: Date, valorTotalDesconto: int)

  /** A row of `vendas`. */
  datatype Venda = Venda(id: int, dataVenda: Date, valorTotal: int, valorTotalDesconto: int)

  /** A row of `itens_vendas`. */
  datatype ItemVenda = ItemVenda(vendaId: int, qtd: int)

  /** The database as the widgets see it, one sequence per table. */
  datatype Db = Db(
    fluxoCaixa: seq<FluxoCaixa>,
    compras: seq<Compra>,
    itensCompras: seq<ItemCompra>,
    contasPagars: seq<ContaPagar>,
    vendaPdvs: seq<VendaPdv>,
    vendas: seq<Venda>,
    itensVendas: seq<ItemVenda>)

  /** Two chained `where` clauses. */
  function And<R>(p: R -> bool, q: R -> bool): R -> bool {
    r => p(r) && q(r)
  }

  /** What one row adds to a filtered sum. */
  function Part<R>(keep: R -> bool, amount: R -> int, r: R): int {
    if keep(r) then amount(r) else 0
  }

  /** The sum of `amount` over the rows that `keep` selects; 0 when none is selected. */
  function SumWhere<R>(rows: seq<R>, keep: R -> bool, amount: R -> int): int {
    if rows == [] then 0
    else SumWhere(rows[..|rows| - 1], keep, amount) + Part(keep, amount, rows[|rows| - 1])
  }

  /** An empty selection sums to 0, never to a null. */
  lemma {:induction false} SumWhereNone<R>(rows: seq<R>, keep: R -> bool, amount: R -> int)
    requires forall i | 0 <= i < |rows| :: !keep(rows[i])
    ensures SumWhere(rows, keep, amount) == 0
  {
    if rows != [] {
      SumWhereNone(rows[..|rows| - 1], keep, amount);
    }
  }

  lemma {:induction false} SumWhereNonNeg<R>(rows: seq<R>, keep: R -> bool, amount: R -> int)
    requires forall i | 0 <= i < |rows| :: keep(rows[i]) ==> amount(rows[i]) >= 0
    ensures SumWhere(rows, keep, amount) >= 0
  {
    if rows != [] {
      SumWhereNonNeg(rows[..|rows| - 1], keep, amount);
    }
  }

  lemma {:induction false} SumWhereNonPos<R>(rows: seq<R>, keep: R -> bool, amount: R -> int)
    requires forall i | 0 <= i < |rows| :: keep(rows[i]) ==> amount(rows[i]) <= 0
    ensures SumWhere(rows, keep, amount) <= 0
  {
    if rows != [] {
      SumWhereNonPos(rows[..|rows| - 1], keep, amount);
    }
  }

  /** When every row adds to the first sum what it adds to the other two together, so do the sums. */
  lemma {:induction false} SumWhereLinear<R>(rows: seq<R>, k0: R -> bool, a0: R -> int,
                                             k1: R -> bool, a1: R -> int, k2: R -> bool, a2: R -> int)
    requires forall i | 0 <= i < |rows| :: Part(k0, a0, rows[i]) == Part(k1, a1, rows[i]) + Part(k2, a2, rows[i])
    ensures SumWhere(rows, k0, a0) == SumWhere(rows, k1, a1) + SumWhere(rows, k2, a2)
  {
    if rows != [] {
      SumWhereLinear(rows[..|rows| - 1], k0, a0, k1, a1, k2, a2);
    }
  }

  /** Two queries that select the same amounts from every row have the same sum. */
  lemma {:induction false} SumWhereSame<R>(rows: seq<R>, k0: R -> bool, a0: R -> int, k1: R -> bool, a1: R -> int)
    requires forall i | 0 <= i < |rows| :: Part(k0, a0, rows[i]) == Part(k1, a1, rows[i])
    ensures SumWhere(rows, k0, a0) == SumWhere(rows, k1, a1)
  {
    if rows != [] {
      SumWhereSame(rows[..|rows| - 1], k0, a0, k1, a1);
    }
  }

  /** A sum over a table extended by one row. */
  lemma SumWhereAppend<R>(rows: seq<R>, r: R, keep: R -> bool, amount: R -> int)
    ensures SumWhere(rows + [r], keep, amount) == SumWhere(rows, keep, amount) + Part(keep, amount, r)
  {
    assert (rows + [r])[..|rows + [r]| - 1] == rows;
  }

  /** A one-row table sums to what its row adds. */
  lemma SumWhereOne<R>(r: R, keep: R -> bool, amount: R -> int)
    ensures SumWhere([r], keep, amount) == Part(keep, amount, r)
  {
    assert [r][..0] == [];
  }

  /** `->value(column) ?? 0`: the column of the first selected row, or 0 when there is none. */
  function ValueWhere<R>(rows: seq<R>, keep: R -> bool, column: R -> int): int {
    if rows == [] then 0
    else if keep(rows[0]) then column(rows[0])
    else ValueWhere(rows[1..], keep, column)
  }

  /** ValueWhere reads the first selected row, and gives 0 only by default when nothing is selected. */
  lemma {:induction false} ValueWhereFirst<R>(rows: seq<R>, keep: R -> bool, column: R -> int, i: nat)
    requires i < |rows| && keep(rows[i])
    requires forall j | 0 <= j < i :: !keep(rows[j])
    ensures ValueWhere(rows, keep, column) == column(rows[i])
  {
    if i > 0 {
      ValueWhereFirst(rows[1..], keep, column, i - 1);
    }
  }

  lemma {:induction false} ValueWhereNone<R>(rows: seq<R>, keep: R -> bool, column: R -> int)
    requires forall i | 0 <= i < |rows| :: !keep(rows[i])
    ensures ValueWhere(rows, keep, column) == 0
  {
    if rows != [] {
      ValueWhereNone(rows[1..], keep, column);
    }
  }

  /** How many points a chart loop running n times produces: n, and none when n <= 0. */
  function Pontos(n: int): nat {
    if n > 0 then n else 0
  }

  /** The sum of a chart series. */
  function SeriesTotal(s: seq<int>): int {
    if s == [] then 0 else SeriesTotal(s[..|s| - 1]) + s[|s| - 1]
  }

  /** A chart built point by point: one point more extends the prefix by that point. */
  lemma PrefixStep<T>(s: seq<T>, i: int, x: T)
    requires 0 <= i < |s| && s[i] == x
    ensures s[..i + 1] == s[..i] + [x]
  {
  }
}
