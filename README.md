# Dashboard statistics widgets, with their cache

This project models the dashboard widgets of a Laravel/Filament sales system
(app/Livewire). Each widget reads sums out of a ledger table and shows a few
headline figures with small charts. Every figure goes through
`Cache::remember` under its own key and TTL. Static methods drop those keys
with `Cache::forget` when the ledger changes. The six widgets are:

- `CaixaStatsOverview`: the cash flow (`fluxo_caixas`). It shows the balance,
  credits, debits, today's inflows, outflows and balance, three 7-day charts
  and a 24-hour chart.
- `ComprasMesChart` (declared in CompraStatsOverview.php): purchases today,
  this month and of all time. Its charts are a 12-hour chart, a
  days-of-the-month chart and a 12-month chart. It also has a daily average.
- `PagarHojeStatsOverview`: open instalments payable (`contas_pagars`,
  status 0), with a 7-day, a days-of-the-month and a 12-month chart.
- `TotalCompraStatsOverview`: either one purchase's item count and total, or
  the general purchase totals with a 7-day trend.
- `TotalVendaStatsOverview`: point-of-sale sales totals with a 7-day trend.
- The per-sale widget in VendaStatsOverview.php (its class is also named
  `TotalVendaStatsOverview`): one sale's item count, gross and net totals.

Shared modules:

- `Calendar`: dates, `subDays`/`subMonths`, a seconds clock.
- `Text`: the decimal and `Y-m-d` renderings used inside cache keys.
- `Money`: `number_format(v, 2, ',', '.')` on integer cents, plus a reader
  that recovers the amount from a display.
- `Ledger`: the table rows and `sum`/`value` over a `where` filter.
- `Keys`: every cache key as a datatype. Its rendering to the key string is
  proved injective.
- `Cache`: a `Store` class whose `entries` map is updated by `Remember` and
  `Forget`.

Each widget module follows the same pattern:

- A specification function gives each chart (`Historico`, `DadosMes`,
  `Trend`, …).
- A loop method computes the chart (`Calcular…`) and is proved equal to that
  function.
- A method per cached read (`Gerar…`, `Buscar…`, `GetStats`) is proved to
  return `Lido`: the cached value when it is live, the fresh one otherwise.
  It is also proved to leave the store as the sequence of `remember` calls
  leaves it.
- Lemmas relate these to the fresh figures, to each other and to the
  invalidation methods.

## Model

| member | source | states |
|---|---|---|
| Cache.Store.Get | app/Livewire/CaixaStatsOverview.php:30-32 | a value is returned exactly when the key holds one that has not expired, and it is the stored value |
| Cache.Store.Remember | app/Livewire/CaixaStatsOverview.php:30-32 | a live entry is returned and kept; otherwise the computed value is returned and stored to expire ttl seconds from now |
| Cache.Store.Forget | app/Livewire/CaixaStatsOverview.php:212 | the key is removed and every other entry is kept |
| Cache.RememberAmount | app/Livewire/CaixaStatsOverview.php:30-32 | `remember` on an amount key: the amount recalled and the refreshed store |
| Cache.RecallWithinTtl | app/Livewire/CaixaStatsOverview.php:30-32 | a value stored on a miss is what any `remember` of the key returns until its TTL runs out, whatever is computed then |
| Cache.RecallAfterTtl | app/Livewire/CaixaStatsOverview.php:30-32 | once the TTL has run out, `remember` recomputes |
| Cache.RecallAfterForget | app/Livewire/CaixaStatsOverview.php:212 | after `forget`, `remember` returns and stores the fresh value |
| Cache.RecallOtherKey | app/Livewire/CaixaStatsOverview.php:212-216 | forgetting or refreshing one key does not change what another key recalls |
| Cache.RecallKind | app/Livewire/CaixaStatsOverview.php:30-32 | a key that held values of one kind still does after `remember` with a value of that kind |
| Cache.RememberAllConcat | app/Livewire/CaixaStatsOverview.php:30-53 | running two lists of `remember` calls one after the other is running their concatenation |
| Cache.RememberAllUntouched | app/Livewire/CaixaStatsOverview.php:30-53 | a key none of the calls names keeps its entry |
| Cache.RememberAllFacts | app/Livewire/CaixaStatsOverview.php:30-53 | after a list of `remember` calls with positive TTLs, every named key is live and nothing else has changed |
| Keys.RenderInjective | app/Livewire/CaixaStatsOverview.php:21-27 | two well-formed keys that render to the same string are the same key, so the 29 key families never collide |
| Keys.RenderDistinct | app/Livewire/CompraStatsOverview.php:23-27 | distinct well-formed keys render to distinct strings |
| Text.DateStringInjective | app/Livewire/CaixaStatsOverview.php:18 | `toDateString()` of two valid dates is equal only for equal dates |
| Text.YearMonthTextInjective | app/Livewire/CompraStatsOverview.php:25 | the `{ano}_{mes}` part of a key determines the year and the month |
| Money.FormatarValorRoundTrip | app/Livewire/CaixaStatsOverview.php:59-64 | the cash-flow formatter's output reads back to the amount, sign included |
| Money.FormatarValorSign | app/Livewire/CaixaStatsOverview.php:61 | the output starts with '-' exactly when the amount is negative |
| Money.FormatarValorSymbol | app/Livewire/CaixaStatsOverview.php:62-63 | the output holds the currency symbol exactly when it is asked for |
| Money.FormatarValorCents | app/Livewire/CaixaStatsOverview.php:60 | the output ends with a comma and exactly the two cent digits |
| Money.FormatarReaisRoundTrip | app/Livewire/CompraStatsOverview.php:46 | "R$ " plus `number_format` of a signed amount reads back to the amount |
| Money.ExibirReaisFiel | app/Livewire/CompraStatsOverview.php:46 | each display in a row of "R$ " amounts reads back to its own amount; the purchases, instalments and sales-totals widgets show their three totals this way |
| Calendar.DaysInMonth | app/Livewire/CompraStatsOverview.php:122 | every month has 28 to 31 days |
| Calendar.MonthPointOrder | app/Livewire/CompraStatsOverview.php:150-153 | the 12-month points are consecutive months ending with the current one |
| Calendar.DayPointOrder | app/Livewire/TotalVendaStatsOverview.php:75-76 | the 7-day points are consecutive days ending today |
| Calendar.MonthOrdinalInjective | app/Livewire/CompraStatsOverview.php:151-153 | two valid months with the same ordinal are the same year and month |
| CaixaStatsOverview.DebitosTotal | app/Livewire/CaixaStatsOverview.php:34-36 | the debit total is never positive |
| CaixaStatsOverview.CreditosTotal | app/Livewire/CaixaStatsOverview.php:38-40 | the credit total is never negative |
| CaixaStatsOverview.EntradasNoDia | app/Livewire/CaixaStatsOverview.php:43-47 | today's inflows are never negative |
| CaixaStatsOverview.SaidasNoDia | app/Livewire/CaixaStatsOverview.php:49-53 | today's outflows are never positive |
| CaixaStatsOverview.SaldoTotalSplit | app/Livewire/CaixaStatsOverview.php:30-40 | the balance is the credits plus the debits |
| CaixaStatsOverview.SaldoNoDiaSplit | app/Livewire/CaixaStatsOverview.php:56 | a day's balance is its inflows plus its (negative) outflows |
| CaixaStatsOverview.SemMovimentoNoDia | app/Livewire/CaixaStatsOverview.php:43-53 | a day without rows shows 0 inflows, outflows and balance |
| CaixaStatsOverview.DiaDoPontoNumero | app/Livewire/CaixaStatsOverview.php:119-122 | point i of an N-day chart is dias - 1 - i days before today |
| CaixaStatsOverview.DiaDoPontoSeguinte | app/Livewire/CaixaStatsOverview.php:121-122 | consecutive points are consecutive calendar days |
| CaixaStatsOverview.DiaDoPontoUltimo | app/Livewire/CaixaStatsOverview.php:119-122 | the last point is today |
| CaixaStatsOverview.HistoricoEntradasSaidas | app/Livewire/CaixaStatsOverview.php:113-179 | the three day charts have one point per day; each balance point is the inflow point minus the outflow magnitude point, and both are non-negative |
| CaixaStatsOverview.PorHoraTotal | app/Livewire/CaixaStatsOverview.php:184-203 | the hourly chart has 24 points and they add up to today's balance |
| CaixaStatsOverview.CalcularHistorico | app/Livewire/CaixaStatsOverview.php:118-129 | the loop builds the day-balance chart |
| CaixaStatsOverview.CalcularEntradas | app/Livewire/CaixaStatsOverview.php:141-153 | the loop builds the inflow chart |
| CaixaStatsOverview.CalcularSaidas | app/Livewire/CaixaStatsOverview.php:165-177 | the loop builds the outflow-magnitude chart |
| CaixaStatsOverview.CalcularPorHora | app/Livewire/CaixaStatsOverview.php:190-201 | the loop builds the hourly chart |
| CaixaStatsOverview.GerarDadosHistorico | app/Livewire/CaixaStatsOverview.php:113-131 | the chart recalled under "fluxo_caixa_historico_{dias}_dias", recomputed on a miss and stored for 10 minutes |
| CaixaStatsOverview.GerarDadosEntradas | app/Livewire/CaixaStatsOverview.php:136-155 | the same for the inflow chart |
| CaixaStatsOverview.GerarDadosSaidas | app/Livewire/CaixaStatsOverview.php:160-179 | the same for the outflow chart |
| CaixaStatsOverview.GerarDadosDia | app/Livewire/CaixaStatsOverview.php:184-203 | the same for the hourly chart, stored for 5 minutes under a key without a date |
| CaixaStatsOverview.PorHoraSemData | app/Livewire/CaixaStatsOverview.php:186-189 | an hourly chart stored before midnight is what a read just after midnight shows, not the new day's |
| CaixaStatsOverview.BuscarTotais | app/Livewire/CaixaStatsOverview.php:30-56 | the five totals are the cached-or-fresh ones, and the store is as the five `remember` calls leave it |
| CaixaStatsOverview.BuscarGraficos | app/Livewire/CaixaStatsOverview.php:75-103 | the four charts likewise |
| CaixaStatsOverview.GetStats | app/Livewire/CaixaStatsOverview.php:15-108 | the figures shown are the cached-or-fresh ones, and the store is as all nine `remember` calls leave it |
| CaixaStatsOverview.StatsEstado | app/Livewire/CaixaStatsOverview.php:15-108 | after `getStats` only its nine keys have changed, and all of them are live |
| CaixaStatsOverview.LidoSemCache | app/Livewire/CaixaStatsOverview.php:15-108 | with none of its keys cached, `getStats` shows the fresh figures |
| CaixaStatsOverview.SaldoHojeFresco | app/Livewire/CaixaStatsOverview.php:44-56 | with neither of today's inflow and outflow keys live, the balance shown for today is the signed sum of today's rows |
| CaixaStatsOverview.SaldoHojeMisto | app/Livewire/CaixaStatsOverview.php:44-56 | with only the inflows live, today's balance is the cached inflows plus fresh outflows, and it equals the day's signed sum exactly when the cached inflows are still current |
| CaixaStatsOverview.FrescoCoerente | app/Livewire/CaixaStatsOverview.php:30-56 | the fresh figures agree: balance = credits + debits, today's balance = inflows + outflows, and the hourly chart sums to today's balance |
| CaixaStatsOverview.ExibicaoFiel | app/Livewire/CaixaStatsOverview.php:71-99 | the four displays read back to the balance, the credits, the debit magnitude and today's balance |
| CaixaStatsOverview.GraficosKeysRender | app/Livewire/CaixaStatsOverview.php:219-221 | the chart keys the invalidation methods spell out are the ones `getStats` uses with 7 days |
| CaixaStatsOverview.ClearCache | app/Livewire/CaixaStatsOverview.php:206-223 | exactly the nine keys `getStats` reads today are dropped |
| CaixaStatsOverview.InvalidateCacheOnNewFluxo | app/Livewire/CaixaStatsOverview.php:226-245 | the same nine keys are dropped, in another order |
| CaixaStatsOverview.LidoAposInvalidar | app/Livewire/CaixaStatsOverview.php:226-245 | after invalidation the next `getStats` shows the fresh figures |
| CaixaStatsOverview.OutrosDiasMantidos | app/Livewire/CaixaStatsOverview.php:232-233 | the daily totals cached for any other day survive the invalidation |
| ComprasMesChart.CalcularDadosHoje | app/Livewire/CompraStatsOverview.php:98-108 | the loop builds the twelve hour windows, oldest first |
| ComprasMesChart.UltimasHorasSoHoje | app/Livewire/CompraStatsOverview.php:102 | with no purchase dated today every hour point is 0, even for windows that reach back into yesterday |
| ComprasMesChart.FronteiraContadaDuasVezes | app/Livewire/CompraStatsOverview.php:103-104 | a purchase exactly on a window boundary counts in both neighbouring windows |
| ComprasMesChart.JanelaDaMeiaNoiteVazia | app/Livewire/CompraStatsOverview.php:99-104 | the window that crosses midnight is empty: its start time-of-day lies after its end |
| ComprasMesChart.CalcularDadosMes | app/Livewire/CompraStatsOverview.php:122-135 | the loop builds one point per day elapsed in the month |
| ComprasMesChart.DadosMesTamanho | app/Livewire/CompraStatsOverview.php:122-123 | for the current month the chart has as many points as today's day of the month |
| ComprasMesChart.DadosMesSomaTotal | app/Livewire/CompraStatsOverview.php:117-137 | without future-dated purchases this month, the month chart adds up to the month total |
| ComprasMesChart.CalcularDadosGeral | app/Livewire/CompraStatsOverview.php:147-162 | the loop builds the 12 monthly totals |
| ComprasMesChart.DadosGeralSoma | app/Livewire/CompraStatsOverview.php:142-164 | 12 points, the last is the current month's total, and together they are the purchases of the 12 months |
| ComprasMesChart.Divisor | app/Livewire/CompraStatsOverview.php:181 | the divisor is at least 1 |
| ComprasMesChart.MediaDiariaExata | app/Livewire/CompraStatsOverview.php:176-183 | the divisor is today's day number and the average times it gives back the month total |
| ComprasMesChart.GetMediaDiariaMesAtual | app/Livewire/CompraStatsOverview.php:169-184 | the average recalled under the month's key, computed and stored for 15 minutes on a miss |
| ComprasMesChart.GerarDadosHoje | app/Livewire/CompraStatsOverview.php:89-112 | the hours chart recalled under today's key, computed and stored for 5 minutes on a miss |
| ComprasMesChart.GerarDadosMesAtual | app/Livewire/CompraStatsOverview.php:117-137 | the month chart likewise, 15 minutes |
| ComprasMesChart.GerarDadosGeral | app/Livewire/CompraStatsOverview.php:142-164 | the 12-month chart likewise, 1 hour |
| ComprasMesChart.BuscarTotais | app/Livewire/CompraStatsOverview.php:30-43 | the three totals are the cached-or-fresh ones; the store is as the three `remember` calls leave it |
| ComprasMesChart.BuscarGraficos | app/Livewire/CompraStatsOverview.php:49-51 | the three charts likewise |
| ComprasMesChart.GetStats | app/Livewire/CompraStatsOverview.php:15-84 | the figures shown are the cached-or-fresh ones; the store is as the six `remember` calls leave it |
| ComprasMesChart.StatsEstado | app/Livewire/CompraStatsOverview.php:15-84 | after `getStats` only its six keys have changed, and all are live |
| ComprasMesChart.LidoSemCache | app/Livewire/CompraStatsOverview.php:15-84 | with nothing cached, the fresh figures are shown |
| ComprasMesChart.FrescoCoerente | app/Livewire/CompraStatsOverview.php:30-51 | the month chart has a point per day elapsed and the 12-month chart ends with the month's total |
| ComprasMesChart.ClearCache | app/Livewire/CompraStatsOverview.php:187-204 | exactly the widget's seven keys of today and this month are dropped |
| ComprasMesChart.InvalidateCacheOnNewCompra | app/Livewire/CompraStatsOverview.php:207-226 | the same seven keys are dropped |
| ComprasMesChart.LidoAposInvalidar | app/Livewire/CompraStatsOverview.php:207-226 | after invalidation `getStats` and the average show fresh figures |
| ComprasMesChart.OutrosPeriodosMantidos | app/Livewire/CompraStatsOverview.php:197-221 | the daily keys of other days, and the monthly total, chart and average keys of other months, keep their entries |
| ComprasMesChart.MesComAno | app/Livewire/CompraStatsOverview.php:25 | the same month of two years never shares a key string |
| PagarHojeStatsOverview.CalcularDadosHoje | app/Livewire/PagarHojeStatsOverview.php:94-102 | the loop builds the open instalments due on each of the last 7 dates |
| PagarHojeStatsOverview.CalcularDadosMes | app/Livewire/PagarHojeStatsOverview.php:119-134 | the loop builds one point per day elapsed of this month |
| PagarHojeStatsOverview.CalcularDadosGeral | app/Livewire/PagarHojeStatsOverview.php:146-160 | the loop builds the 12 monthly points |
| PagarHojeStatsOverview.GerarDadosHoje | app/Livewire/PagarHojeStatsOverview.php:86-106 | the 7-day chart recalled under a key without a date, computed and stored for 5 minutes on a miss |
| PagarHojeStatsOverview.GerarDadosMes | app/Livewire/PagarHojeStatsOverview.php:111-136 | the month chart likewise, 10 minutes |
| PagarHojeStatsOverview.GerarDadosGeral | app/Livewire/PagarHojeStatsOverview.php:141-162 | the 12-month chart likewise, 1 hour |
| PagarHojeStatsOverview.BuscarTotais | app/Livewire/PagarHojeStatsOverview.php:30-48 | the three totals are the cached-or-fresh ones; the store is as the three `remember` calls leave it |
| PagarHojeStatsOverview.BuscarGraficos | app/Livewire/PagarHojeStatsOverview.php:53-80 | the three charts likewise |
| PagarHojeStatsOverview.GetStats | app/Livewire/PagarHojeStatsOverview.php:15-81 | the figures shown are the cached-or-fresh ones; the store is as the six `remember` calls leave it |
| PagarHojeStatsOverview.LidoSemCache | app/Livewire/PagarHojeStatsOverview.php:15-81 | with nothing cached, the fresh figures are shown |
| PagarHojeStatsOverview.ContaFechadaIgnorada | app/Livewire/PagarHojeStatsOverview.php:32 | an instalment whose status is not 0 changes no figure |
| PagarHojeStatsOverview.HojeIgnoraMesEAno | app/Livewire/PagarHojeStatsOverview.php:33 | an open instalment due on today's day number of another month counts in "today" but not in the chart's today point |
| PagarHojeStatsOverview.MesIgnoraAno | app/Livewire/PagarHojeStatsOverview.php:40 | an open instalment due in this month number of another year counts in "month" but not in the chart's current-month point |
| PagarHojeStatsOverview.FrescoTamanhos | app/Livewire/PagarHojeStatsOverview.php:94-160 | the charts have 7 points, one per day elapsed, and 12 points |
| PagarHojeStatsOverview.ClearCache | app/Livewire/PagarHojeStatsOverview.php:165-176 | exactly the six keys `getStats` reads today are dropped |
| PagarHojeStatsOverview.InvalidateCacheOnChange | app/Livewire/PagarHojeStatsOverview.php:179-190 | exactly the three total keys are dropped |
| PagarHojeStatsOverview.LidoAposLimpar | app/Livewire/PagarHojeStatsOverview.php:165-176 | after `clearCache` the next `getStats` shows fresh figures |
| PagarHojeStatsOverview.LidoAposInvalidar | app/Livewire/PagarHojeStatsOverview.php:179-190 | after `invalidateCacheOnChange` the totals are fresh and the charts are still what was cached |
| TotalCompraStatsOverview.CompraFrescaTotal | app/Livewire/TotalCompraStatsOverview.php:36 | the total is the `valor_total` of the first purchase row with the id |
| TotalCompraStatsOverview.CompraFrescaAusente | app/Livewire/TotalCompraStatsOverview.php:35-36 | a purchase with no rows shows zeros |
| TotalCompraStatsOverview.CompraFrescaItem | app/Livewire/TotalCompraStatsOverview.php:35 | a new item adds its quantity to its own purchase only, and leaves the total alone |
| TotalCompraStatsOverview.GetIndividualCompraStats | app/Livewire/TotalCompraStatsOverview.php:29-51 | the purchase's figures recalled under "compra_stats_id_{id}", computed and stored for 5 minutes on a miss |
| TotalCompraStatsOverview.CalcularTrend | app/Livewire/TotalCompraStatsOverview.php:96-103 | the loop builds the purchases of the last 7 dates, oldest first |
| TotalCompraStatsOverview.TrendTerminaHoje | app/Livewire/TotalCompraStatsOverview.php:97-101 | the trend has 7 points and the last is today's purchases |
| TotalCompraStatsOverview.GetTrendSeteDias | app/Livewire/TotalCompraStatsOverview.php:93-105 | the trend recalled under a key without a date, computed and stored for 15 minutes on a miss |
| TotalCompraStatsOverview.GetGeneralCompraStats | app/Livewire/TotalCompraStatsOverview.php:53-91 | today's and the month's totals and the trend are cached-or-fresh, the all-time total is always fresh, and the store is as the three `remember` calls leave it |
| TotalCompraStatsOverview.GetStats | app/Livewire/TotalCompraStatsOverview.php:19-27 | with a record the individual figures are shown and only its key changes; without one the general figures |
| TotalCompraStatsOverview.TotalGeralSemCache | app/Livewire/TotalCompraStatsOverview.php:86 | the all-time total shown is the fresh sum, whatever the cache holds |
| TotalCompraStatsOverview.LidoGeralSemCache | app/Livewire/TotalCompraStatsOverview.php:53-91 | with nothing cached, the fresh general figures are shown |
| TotalCompraStatsOverview.HojeCompartilhado | app/Livewire/TotalCompraStatsOverview.php:59 | "compras_total_hoje_{date}" is the key the purchases widget uses; right after that widget's `getStats`, this one shows the same total for today |
| TotalCompraStatsOverview.MesNaoInvalidado | app/Livewire/TotalCompraStatsOverview.php:66 | "compras_total_mes_{mes}" is not among the keys the purchase invalidation drops, so its entry survives a new purchase |
| TotalCompraStatsOverview.MesKeyDistinta | app/Livewire/TotalCompraStatsOverview.php:66 | that key never equals the purchases widget's "compras_total_mes_{ano}_{mes}" |
| TotalCompraStatsOverview.ExibicaoIndividualFiel | app/Livewire/TotalCompraStatsOverview.php:41-46 | the two individual displays read back to the quantity and the total |
| TotalVendaStatsOverview.CalcularTrend | app/Livewire/TotalVendaStatsOverview.php:74-81 | the loop builds the `vendas` totals of the last 7 dates, oldest first |
| TotalVendaStatsOverview.GetTrendUltimos7Dias | app/Livewire/TotalVendaStatsOverview.php:71-83 | the trend recalled under "vendas_trend_7d_dash", computed and stored for 15 minutes on a miss |
| TotalVendaStatsOverview.StatsEmSequencia | app/Livewire/TotalVendaStatsOverview.php:25-50 | the four `remember` calls in order, and exactly the four keys they touch |
| TotalVendaStatsOverview.GetStats | app/Livewire/TotalVendaStatsOverview.php:18-66 | the three totals and the trend are cached-or-fresh; the store is as the four `remember` calls leave it |
| TotalVendaStatsOverview.LidoSemCache | app/Livewire/TotalVendaStatsOverview.php:18-66 | with nothing cached, the fresh figures are shown |
| TotalVendaStatsOverview.TrendTerminaHoje | app/Livewire/TotalVendaStatsOverview.php:75-79 | the trend has 7 points and the last is today's `vendas` total |
| TotalVendaStatsOverview.TabelasSeparadas | app/Livewire/TotalVendaStatsOverview.php:26-41 | a point-of-sale sale moves the totals but not the trend, and a `vendas` row moves the trend but not the totals |
| VendaStatsOverview.VendaFrescaValores | app/Livewire/VendaStatsOverview.php:38-44 | the gross and net totals both come from the first sale row with the id |
| VendaStatsOverview.VendaFrescaAusente | app/Livewire/VendaStatsOverview.php:34-44 | a sale with no rows shows zeros |
| VendaStatsOverview.VendaFrescaItem | app/Livewire/VendaStatsOverview.php:34-36 | a new item adds its quantity to its own sale only, and leaves both totals alone |
| VendaStatsOverview.GetStats | app/Livewire/VendaStatsOverview.php:21-72 | with no record, nothing is shown and the cache is untouched; with one, its figures are cached-or-fresh under "venda_stats_overview_{id}" for 5 minutes |
| VendaStatsOverview.LidoSemCache | app/Livewire/VendaStatsOverview.php:32-46 | with the sale's key absent, the fresh figures are shown |
| VendaStatsOverview.QtdInteiraTrunca | app/Livewire/VendaStatsOverview.php:51 | the `(int)` cast drops the fraction toward zero and keeps the sign |
| VendaStatsOverview.ExibicaoFiel | app/Livewire/VendaStatsOverview.php:48-63 | the count display is the truncated quantity, and the two amounts read back to the gross and net totals |
| VendaStatsOverview.ClearCache | app/Livewire/VendaStatsOverview.php:78-81 | exactly the one sale's key is dropped |
| VendaStatsOverview.LidoAposLimpar | app/Livewire/VendaStatsOverview.php:78-81 | after `clearCache` that sale's figures are fresh and every other sale keeps what it had cached |

## Left out

- Presentation is not modelled. This covers `Stat::make`, descriptions, icons, colours, extra attributes, `translatedFormat`, and the literal example charts of the per-sale widget (VendaStatsOverview.php:55-67).
- The database is not modelled. Each table is a sequence of rows; `where`, `whereDate`, `whereMonth`, `whereYear`, `whereDay` and `HOUR()` are row predicates; `sum(...) ?? 0` is a sum over the matching rows that is 0 when none match, and `value(...) ?? 0` is the first matching row's column or 0.
- Amounts and quantities are integers in hundredths. `round($v, 2)` is then the identity and is not modelled. Floating-point error in the sums is not modelled either.
- ComprasMesChart.MediaDiariaExata: the average is an exact rational division, not PHP float division.
- The clock is not modelled. `Carbon::now()` is one `now` parameter per call. The source re-reads the clock inside the loops, so a run crossing a second, minute or midnight boundary can mix two instants. Time zones and daylight saving are not modelled.
- `whereTime` compares `H:i:s` strings; the model compares seconds since midnight, which orders the same way.
- `subMonths` is stepped arithmetically on (year, month), so the twelve monthly points are always twelve distinct consecutive months. Carbon's `subMonths` overflows the day instead: on days 29 to 31 the month reached may lack that day, and the date rolls into the next month. For example, 2025-03-31 `subMonths(1)` gives 2025-03-03, so `->month` is 3. On those days the source's twelve-month charts (CompraStatsOverview.php:150-153, PagarHojeStatsOverview.php:149-154) can show one month twice and skip another. The model does not capture this. The members it affects are Calendar.MonthsBack, Calendar.MonthPoint and Calendar.MonthPointOrder, ComprasMesChart.DadosGeral, CalcularDadosGeral, DadosGeralSoma and FrescoCoerente, and PagarHojeStatsOverview.DadosGeral, CalcularDadosGeral, MesIgnoraAno and FrescoTamanhos.
- Concurrency is not modelled: no two requests racing between a cache miss and `put`. Cache drivers and cache tags are not modelled either.
- The cache requirements (`Holds`): the widgets need each key to hold a value of the kind they store there. A different kind would be a PHP type error or nonsense display. The model states this as a precondition rather than modelling the failure.
- ComprasMesChart.GetMediaDiariaMesAtual: it is modelled although no other code of the widget calls it.
- TotalVendaStatsOverview.GetStats: it takes no record, because `$record` is declared but never read in the sales-totals widget.
- The two per-sale and sales-totals classes share the name `TotalVendaStatsOverview` in the source. The model keeps them apart as `VendaStatsOverview` and `TotalVendaStatsOverview`. Which of the two PHP would load is not modelled.
- `clearCache` and the invalidation methods are modelled, but not who calls them (observers).
- The context files are not part of this model: resources, providers, migrations, the `Parametro` model, `TotalVendasPorCliente` and `VendasPDVMesChart`.
