# Sales dashboard analytics, modelled in Dafny

This project models the computational core of a sales dashboard written in
TypeScript and React. The core has two parts.

- The analytics functions of `src/data/mockData.ts`. Each takes the list of
  sale records (`VendaData`) and computes a summary:
  - total revenue and average ticket;
  - distinct customers and distinct products;
  - revenue per month, sorted by year and then month;
  - the top products by revenue;
  - revenue per channel and per region;
  - the customer profile: distinct customers per age bracket and per sex;
  - the purchase-recurrence heatmap: purchases per (customer, month) for the
    20 customers with most purchases.
- The page logic of `src/App.tsx`:
  - the option lists of the channel, region and category selectors;
  - the chain of four filters (period, channel, region, category) that
    narrows the sales to the selection;
  - the sorted list of periods offered by the period selector;
  - the CSV text of the filtered sales.

Modules, in dependency order:

| file | module | what it holds |
|---|---|---|
| `opcao.dfy` | `Opcao` | `Option`, standing for JavaScript's `undefined`/`NaN` |
| `texto.dfy` | `Texto` | `split`, `join`, array slots past the end, template literals, `parseInt`, `String(n)`, and the default code-unit order of `sort()` |
| `colecoes.dfy` | `Colecoes` | `Set` in insertion order, `map`, `filter`, `slice` |
| `ordenacao.dfy` | `Ordenacao` | `Array.prototype.sort` with a comparator: a stable insertion sort, proved sorted, a permutation and stable |
| `agrupamento.dfy` | `Agrupamento` | the dictionary-filling loops (`if (!r[k]) r[k] = 0; r[k] += w`), the dictionaries of Sets, and the sort-and-slice ranking |
| `vendas.dfy` | `Vendas` | the `VendaData` record (`src/data/mockData.ts:2-14`), the month key `YYYY-MM`, the label `MM/YYYY`, and the period comparator |
| `analise.dfy` | `Analise` | the analytics functions up to the customer profile |
| `recorrencia.dfy` | `Recorrencia` | `calcularRecorrenciaCompra` |
| `painel.dfy` | `Painel` | option lists, filters, period list, CSV text |

How JavaScript behaviour is represented:

- `VALOR` is an integer number of cents.
- `DATA_VENDA` is a subset type of well-formed `YYYY-MM-DD` strings.
- A dictionary that a loop fills is a `map` plus the sequence of its keys in
  insertion order, which is the order `Object.entries` returns.
- A `Set` is a sequence without repetitions, in insertion order.
- A sort with a comparator is `Ordenar(s, le)`. Here `le(a, b)` means
  `compare(a, b) <= 0`, and a `NaN` comparison counts as 0.
- The loops of the source are methods with loop invariants. Each method is
  proved equal to a specification function, and the properties are lemmas
  about that function.

## Model

| member | source | states |
|---|---|---|
| Vendas.PartesData | src/data/mockData.ts:123 | Splitting a well-formed `DATA_VENDA` at `-` gives exactly year, month and day. |
| Vendas.ChaveMes | src/data/mockData.ts:123-124 | The `${ano}-${mes}` key of a sale is year, `-`, month: the first seven characters of its date. |
| Vendas.RotuloMes | src/App.tsx:65-67 | The `${mes}/${ano}` label of a sale is month, `/`, year of its date. |
| Vendas.RotuloDeChaveMes | src/data/mockData.ts:135-137 | Turning a sale's month key back into a label gives the sale's own label. |
| Vendas.ChaveMesOrdem | src/data/mockData.ts:270 | On month keys the default text order is chronological, and two keys are equal exactly when the months are. |
| Vendas.RotuloMesValido | src/data/mockData.ts:137 | Every sale's label is a well-formed `MM/YYYY` whose value is the sale's (year, month). |
| Vendas.PartesRotulo | src/data/mockData.ts:142-143 | A well-formed label splits at `/` into month and year, and `parseInt` reads both. |
| Vendas.CompararRotulos | src/data/mockData.ts:141-150 | On well-formed labels the comparator never gives NaN, and "may precede" holds exactly when (year, month) is not later. |
| Vendas.RotuloInjetivo | src/data/mockData.ts:137 | Two well-formed labels for the same (year, month) are the same label. |
| Vendas.RotuloMesIgual | src/data/mockData.ts:137 | Two sales have the same label exactly when they fall in the same month. |
| Vendas.OrdemTextoHifen | src/data/mockData.ts:270 | Two `${ano}-${mes}` texts with years of equal length compare by year first, and by month when the years are equal. |
| Vendas.IgualHifen | src/data/mockData.ts:124 | Such texts are equal exactly when year and month both are. |
| Vendas.DigitosIguais | src/data/mockData.ts:124 | Digit strings of equal length are equal exactly when their values are. |
| Vendas.AnoMesLexicografico | src/data/mockData.ts:270 | Comparing `year * 100 + month` with two-digit months is comparing year first, then month. |
| Vendas.ChaveTextoOrdem | src/data/mockData.ts:270 | On `${ano}-${mes}` texts of digits the default text order is the order of `year * 100 + month`. |
| Vendas.ChaveTextoIgual | src/data/mockData.ts:124 | Such texts are equal exactly when `year * 100 + month` is. |
| Vendas.PeriodoAntesPreordem | src/App.tsx:70-79 | The period comparator is total and transitive on well-formed labels. |
| Texto.Dividir | src/data/mockData.ts:123 | `split` gives one more piece than there are separators, and no piece holds the separator. |
| Texto.JuntarDividir | src/App.tsx:104 | Joining the pieces of a split with the same separator gives back the text. |
| Texto.DividirJuntar | src/App.tsx:103-111 | Splitting a join of separator-free pieces gives back the pieces. |
| Texto.Campo | src/App.tsx:37 | Reading an array slot gives a value exactly when the index is in range, and `undefined` otherwise. |
| Texto.ParseInt | src/data/mockData.ts:146 | `parseInt` is a number exactly when the text starts with a digit. |
| Texto.ParseIntDigitos | src/data/mockData.ts:146 | `parseInt` of a digit string is its decimal value. |
| Texto.ParseIntPrefixo | src/data/mockData.ts:225 | `parseInt` stops at the first non-digit, so `"60+"` reads as 60. |
| Texto.Diferenca | src/data/mockData.ts:146 | Subtracting numbers gives NaN when either side is NaN, and the difference otherwise. |
| Texto.OrdemTextoTotal | src/data/mockData.ts:270 | The default sort order compares any two texts. |
| Texto.OrdemTextoTransitiva | src/data/mockData.ts:270 | The default sort order is transitive. |
| Texto.OrdemTextoAntissimetrica | src/data/mockData.ts:270 | Texts that are each at most the other are equal. |
| Texto.OrdemTextoDigitos | src/data/mockData.ts:270 | On digit strings of equal length the default order is numeric order. |
| Texto.IntParaTexto | src/App.tsx:107 | `String` of an integer holds only digits, `-` and `.`. |
| Texto.CentavosParaTexto | src/App.tsx:107 | `String` of an amount holds only digits, `-` and `.`. |
| Texto.IntParaTextoValor | src/App.tsx:107 | `parseInt` reads the text of a non-negative integer back as that integer; a negative one is `-` before the text of its magnitude. |
| Texto.CentimosValor | src/App.tsx:107 | The digits after the point are one or two, end in a non-zero digit and are worth the cents. |
| Texto.CentavosInteiros | src/App.tsx:107 | A whole amount is written as its units alone, which `parseInt` reads back. |
| Texto.CentavosComFracao | src/App.tsx:107 | An amount with cents is its units, which `parseInt` reads back, a `.`, and digits worth the cents. |
| Texto.CentavosParaTextoValor | src/App.tsx:107 | The text of an amount determines the amount: sign, whole units read by `parseInt`, and the cents after the point without a trailing zero. |
| Colecoes.Distintos | src/data/mockData.ts:110 | `new Set(xs)` has no repetition, contains every element of `xs`, holds nothing else, and is no longer than `xs`. |
| Colecoes.DistintosOrdem | src/App.tsx:27-29 | A Set lists its elements in the order of their first occurrence. |
| Colecoes.TamanhoDistintos | src/data/mockData.ts:111 | `Set.size` is the number of distinct elements, at most the length, and 0 exactly for an empty list. |
| Colecoes.DistintosCheio | src/data/mockData.ts:111 | The Set is as large as the list exactly when nothing repeats. |
| Colecoes.Projetar | src/data/mockData.ts:110 | `map` keeps the length and applies the function at every index. |
| Colecoes.ProjetarPermutacao | src/data/mockData.ts:141-150 | Reordering a list does not change which values its `map` takes. |
| Colecoes.Filtrar | src/App.tsx:38 | `filter` keeps only elements that pass and keeps every element that passes. |
| Colecoes.FiltrarSubsequencia | src/App.tsx:33-59 | What `filter` keeps stays in its original order. |
| Colecoes.FiltrarTudo | src/App.tsx:33 | A filter that every element passes keeps the list unchanged. |
| Colecoes.FiltrarComposto | src/App.tsx:33-59 | Two filters in a row equal one filter on the conjunction. |
| Colecoes.Fatiar | src/data/mockData.ts:167 | `slice(0, end)` is a prefix of length `end` clamped to the list, counting back from the end when `end` is negative. |
| Ordenacao.Ordenar | src/data/mockData.ts:141 | Sorting is a permutation. |
| Ordenacao.InserirMultiset | src/data/mockData.ts:141 | One insertion step of the sort adds exactly the inserted element. |
| Ordenacao.InseridoOrdenado | src/data/mockData.ts:141-150 | Inserting an element after everything that may precede it and before the rest keeps a list in comparator order. |
| Ordenacao.OrdenarCorreto | src/data/mockData.ts:141-150 | With a consistent comparator the sort result is in comparator order, a permutation, and stable. |
| Ordenacao.OrdenarSemRepeticao | src/data/mockData.ts:141-150 | Sorting creates no repeated keys. |
| Ordenacao.OrdenadosIguais | src/data/mockData.ts:270 | Two repetition-free sorted lists with the same elements are equal, so the sort result does not depend on collection order. |
| Agrupamento.ChavesMembro | src/data/mockData.ts:181 | The dictionary keys are exactly the keys of the data, each once. |
| Agrupamento.ChavesDistintos | src/data/mockData.ts:181 | The dictionary's key order is the first-seen order of the keys. |
| Agrupamento.ChavesOrdem | src/data/mockData.ts:181 | Every key of the dictionary occurs in the data, and earlier keys first occur earlier. |
| Agrupamento.AcumuladoPrefixo | src/data/mockData.ts:173-179 | One loop step keeps the dictionary equal to the per-key sums of the sales seen so far. |
| Agrupamento.EntradasAcumuladas | src/data/mockData.ts:181-182 | The entries of the filled dictionary are the per-key sums in first-seen key order. |
| Agrupamento.SomarPorChave | src/data/mockData.ts:170-182 | The dictionary loop and `Object.entries` compute the per-key sums in first-seen order. |
| Agrupamento.SomasCorretas | src/data/mockData.ts:170-183 | Each key appears once, in first-seen order, comes from the data, carries the sum of its sales; every sale's key is present. |
| Agrupamento.SomasConservam | src/data/mockData.ts:170-183 | The per-key sums add up to the total. |
| Agrupamento.SomaValoresPermutacao | src/data/mockData.ts:141-150 | Reordering entries does not change their sum. |
| Agrupamento.Adicionar | src/data/mockData.ts:212 | `Set.add` keeps a Set free of repetitions and adds exactly the new member. |
| Agrupamento.MembrosCorretos | src/data/mockData.ts:207-219 | Each key's Set holds each member once, and exactly the members of the sales with that key. |
| Agrupamento.MembrosLimite | src/data/mockData.ts:223 | A key's Set is no larger than the number of distinct members overall. |
| Agrupamento.RegistrarMembro | src/data/mockData.ts:209-212 | One step creates the key's Set when it is missing, then adds the member. |
| Agrupamento.AcumuladoMembrosPrefixo | src/data/mockData.ts:207-219 | One loop step keeps every Set equal to the members of the sales seen so far. |
| Agrupamento.ContagensAcumuladas | src/data/mockData.ts:222-223 | The sizes of the filled Sets, in key order, are the per-key distinct counts. |
| Agrupamento.MaiorValorPreordem | src/data/mockData.ts:166 | The descending-value comparator is consistent. |
| Agrupamento.RankingBase | src/data/mockData.ts:164-167 | The ranking is a prefix of a stable descending sort of the per-key sums. |
| Agrupamento.RankingTamanho | src/data/mockData.ts:167 | The ranking has min(limit, distinct keys) entries, with `slice`'s meaning for a negative limit. |
| Agrupamento.RankingSemRepeticao | src/data/mockData.ts:164-167 | No key appears twice in the ranking. |
| Agrupamento.RankingValores | src/data/mockData.ts:164-166 | Each ranked entry is a key of the data with its summed value, and values never increase down the list. |
| Agrupamento.RankingCorte | src/data/mockData.ts:166-167 | No key left out has a larger sum than a ranked one. |
| Agrupamento.RankingEstavel | src/data/mockData.ts:166 | Entries with equal sums keep the first-seen order of their keys. |
| Analise.SomarMinimo | src/data/mockData.ts:101 | A sum of values each at least `lo` is at least `n * lo`. |
| Analise.SomarMaximo | src/data/mockData.ts:101 | A sum of values each at most `hi` is at most `n * hi`. |
| Analise.CalcularTotalVendas | src/data/mockData.ts:100-102 | The total is 0 for no sales, the amount of a single sale, and not negative when no amount is. |
| Analise.TotalConcat | src/data/mockData.ts:100-102 | The total of two lists is the sum of their totals; with the single-sale case this fixes the total as the sum of `VALOR`. |
| Analise.CalcularTicketMedio | src/data/mockData.ts:104-107 | The ticket is NaN exactly for no sales. |
| Analise.TicketMedioVezesVendas | src/data/mockData.ts:104-107 | For some sales, the ticket times the number of sales is the total. |
| Analise.TicketMedioEntreExtremos | src/data/mockData.ts:104-107 | The ticket lies between the smallest and the largest amount. |
| Analise.MediaEntre | src/data/mockData.ts:104-107 | A total between `n * lo` and `n * hi`, divided by `n`, lies between `lo` and `hi`. |
| Analise.ContarClientesUnicos | src/data/mockData.ts:109-112 | The count is the size of the set of customer ids; it is at most the number of sales, 0 exactly for no sales, and equal to it exactly when no id repeats. |
| Analise.ContarProdutosUnicos | src/data/mockData.ts:114-117 | The same for product names. |
| Analise.AgruparPorMes | src/data/mockData.ts:119-151 | The loop, relabelling and sort compute the specified monthly revenue. |
| Analise.ChaveERotulo | src/data/mockData.ts:124 | Two sales share a month key exactly when they share a label. |
| Analise.RotuladoOrigem | src/data/mockData.ts:133-140 | Every relabelled entry comes from a sale whose key and label it carries. |
| Analise.RotuladosValores | src/data/mockData.ts:133-140 | Every relabelled entry has a well-formed label of some sale and the revenue of that label's sales. |
| Analise.RotuladosSemRepeticao | src/data/mockData.ts:133-140 | No label appears twice after relabelling. |
| Analise.RotuladosCompletos | src/data/mockData.ts:133-140 | Every sale's label appears after relabelling. |
| Analise.MesAntesPreordem | src/data/mockData.ts:141-150 | The month comparator is consistent on well-formed labels. |
| Analise.PorMesOrdenado | src/data/mockData.ts:141-150 | The monthly list is in comparator order, a permutation of the relabelled entries, and without repeated labels. |
| Analise.PorMesValores | src/data/mockData.ts:119-151 | Each monthly entry is a well-formed label of some sale with the revenue of all that month's sales. |
| Analise.PorMesEntrada | src/data/mockData.ts:133-150 | Every sorted monthly entry is one of the relabelled entries. |
| Analise.PorMesCompleto | src/data/mockData.ts:119-151 | Every sale's month has an entry. |
| Analise.PorMesCrescente | src/data/mockData.ts:141-150 | The monthly entries ascend strictly by (year, month). |
| Analise.SomaValoresRotular | src/data/mockData.ts:134-139 | Relabelling does not change the revenue sum. |
| Analise.AgruparPorMesConserva | src/data/mockData.ts:119-151 | The monthly revenues add up to the total revenue. |
| Analise.CalcularTopProdutos | src/data/mockData.ts:153-168 | The loop, sort and slice compute the product ranking with default limit 10. |
| Analise.CalcularDistribuicaoPorCanal | src/data/mockData.ts:170-183 | The loop computes the per-channel sums in first-seen order. |
| Analise.CalcularDistribuicaoPorRegiao | src/data/mockData.ts:185-198 | The loop computes the per-region sums in first-seen order. |
| Analise.DoisDigitos | src/data/mockData.ts:225 | `parseInt` of two digits is their value. |
| Analise.LimiteFaixaTexto | src/data/mockData.ts:225-226 | The lower bound read from each bracket text is 18, 26, 36, 46 and 60, with `"60+"` read as 60. |
| Analise.CalcularPerfilClientes | src/data/mockData.ts:200-232 | One loop fills both dictionaries of Sets; the result is the bracket counts sorted and the sex counts in first-seen order. |
| Analise.ContagensChaves | src/data/mockData.ts:222-223 | The counted keys are the keys of the data, each once, in first-seen order. |
| Analise.ContagensValores | src/data/mockData.ts:223 | Each count is the number of distinct customers with that key, at most the distinct-customer count. |
| Analise.ContagensFaixa | src/data/mockData.ts:225-226 | Every bracket key has a numeric lower bound. |
| Analise.PorFaixaOrdenado | src/data/mockData.ts:224-228 | The bracket list is in comparator order, a permutation of the counts, and without repeated brackets. |
| Analise.PorFaixaOrigem | src/data/mockData.ts:222-228 | Every sorted bracket entry is one of the counts and is the bracket of some sale. |
| Analise.PorFaixaValores | src/data/mockData.ts:222-228 | Each bracket entry belongs to some sale and counts that bracket's distinct customers. |
| Analise.PorFaixaCompleto | src/data/mockData.ts:222-228 | Every sale's bracket has an entry. |
| Analise.FaixaAntesCrescente | src/data/mockData.ts:224-228 | Of two different brackets, the one that may come first has the smaller lower bound. |
| Analise.PorFaixaPar | src/data/mockData.ts:224-228 | Of two bracket entries, the earlier has the smaller lower bound. |
| Analise.PorFaixaCrescente | src/data/mockData.ts:224-228 | The brackets come out in strictly ascending order of lower bound, so `60+` sorts after `46-60`. |
| Recorrencia.DoClienteAnexar | src/data/mockData.ts:241 | One more sale joins a customer's sales exactly when it is theirs. |
| Recorrencia.DoClienteVazio | src/data/mockData.ts:241-243 | A customer id that no sale carries has no sales. |
| Recorrencia.DoClienteTamanho | src/data/mockData.ts:256 | A customer's number of sales is their purchase count. |
| Recorrencia.DoClienteMes | src/data/mockData.ts:245-249 | Counting a customer's sales by month gives their purchases in that month. |
| Recorrencia.DoClienteMembro | src/data/mockData.ts:241 | A sale is among a customer's sales exactly when it is one of the sales and is theirs. |
| Recorrencia.SomarUm | src/data/mockData.ts:249 | Adding 1 per element counts the elements. |
| Recorrencia.ComprasNoMesPositivo | src/data/mockData.ts:277 | A cell count is positive exactly when the customer bought in that month. |
| Recorrencia.ContarPositivo | src/data/mockData.ts:277 | A count of the elements that pass a test is positive exactly when some element passes. |
| Recorrencia.ComprasNoMesContar | src/data/mockData.ts:245-249 | A cell's purchase count counts the sales of that customer in that month. |
| Recorrencia.MesesDeAcumulado | src/data/mockData.ts:277 | Every customer's month dictionary counts their sales, whether or not it exists. |
| Recorrencia.AtribuirAcumulado | src/data/mockData.ts:245-249 | Adding `w(x)` to the slot of `x`'s key, a missing slot read as 0, turns the per-key sums of some sales into those of the sales plus `x`. |
| Recorrencia.ClienteDaVendaPasso | src/data/mockData.ts:245-249 | The sale's own customer's month dictionary stays correct after one step. |
| Recorrencia.OutroClientePasso | src/data/mockData.ts:241-249 | The other customers' dictionaries stay correct after one step. |
| Recorrencia.MesmoClientePasso | src/data/mockData.ts:241-249 | The month dictionary of the sale's customer, read back from the outer dictionary, stays correct after one step. |
| Recorrencia.ClienteComprasPasso | src/data/mockData.ts:241-249 | After one step every customer's month dictionary counts their sales per month. |
| Recorrencia.ValoresComprasPasso | src/data/mockData.ts:241-249 | The same, for all customers at once. |
| Recorrencia.OrdemComprasPasso | src/data/mockData.ts:241-243 | After one step the outer dictionary's keys are the customers in first-seen order. |
| Recorrencia.AcumuladoComprasPasso | src/data/mockData.ts:238-249 | One loop step keeps the dictionary of dictionaries correct. |
| Recorrencia.RegistrarVenda | src/data/mockData.ts:238-249 | One loop step creates the customer's dictionary and the month slot when missing, then adds one purchase. |
| Recorrencia.AcumularCompras | src/data/mockData.ts:237-250 | The loop builds, for each customer in first-seen order, the purchase count per month key. |
| Recorrencia.TotalComprasCliente | src/data/mockData.ts:256 | A customer's summed month counts equal their number of purchases. |
| Recorrencia.TotaisCorretos | src/data/mockData.ts:253-257 | The customer totals are the per-customer purchase counts in first-seen order. |
| Recorrencia.TopClientesCorreto | src/data/mockData.ts:253-260 | At most 20 customers, none twice, all from the data, counts never increasing, none left out bought more than one kept, and customers with equal counts keep the order of their first purchase. |
| Recorrencia.OrdemTextoPreordem | src/data/mockData.ts:270 | The default sort order is consistent. |
| Recorrencia.OrdenarTextos | src/data/mockData.ts:270 | Sorting distinct texts gives them in order, each once, and no other. |
| Recorrencia.OrdenarMesmoConjunto | src/data/mockData.ts:265-270 | Sorting the Set of months does not depend on the order in which months were added. |
| Recorrencia.MesesAteMembro | src/data/mockData.ts:266-268 | The months gathered from the first `n` customers are the months in their dictionaries. |
| Recorrencia.MesDoCliente | src/data/mockData.ts:267 | A month is in a customer's dictionary exactly when they bought in it. |
| Recorrencia.MesesAteTodos | src/data/mockData.ts:265-268 | The months gathered from all customers are the months of all sales. |
| Recorrencia.ColetarMeses | src/data/mockData.ts:265-268 | The nested loops collect each month of every customer's dictionary once. |
| Recorrencia.MesesUnicos | src/data/mockData.ts:265-270 | The collected and sorted months are the sorted month keys of the sales. |
| Recorrencia.Abreviar | src/data/mockData.ts:280 | `substring(0, 8)` is a prefix of the id of length min(8, length). |
| Recorrencia.AbreviarColide | src/data/mockData.ts:280 | Two different generated ids, `CLI000120` and `CLI000121`, have the same abbreviation. |
| Recorrencia.CelulaContada | src/data/mockData.ts:277 | Reading the month slot, with a missing slot read as 0, gives the customer's number of purchases in that month. |
| Recorrencia.EmpilharLinha | src/data/mockData.ts:274-284 | The inner loop appends the customer's row, one cell per month. |
| Recorrencia.LinhaPrefixo | src/data/mockData.ts:274-284 | A customer's row up to month `j` is the row up to `j - 1` plus that month's cell. |
| Recorrencia.MontarGrade | src/data/mockData.ts:273-285 | The outer loop appends the rows of all chosen customers. |
| Recorrencia.ClientesRegistrados | src/data/mockData.ts:277 | Every chosen customer has a dictionary. |
| Recorrencia.CalcularRecorrenciaCompra | src/data/mockData.ts:234-288 | The whole function computes the specified heatmap. |
| Recorrencia.GradeTamanho | src/data/mockData.ts:273-285 | The heatmap has customers × months cells. |
| Recorrencia.IndiceGrade | src/data/mockData.ts:273-285 | Customer `i` and month `j` address a cell inside the grid. |
| Recorrencia.GradeCelula | src/data/mockData.ts:273-285 | Customer `i` and month `j` meet in cell `i * months + j`, which holds the abbreviated id, the label and that month's purchases. |
| Recorrencia.MesesOrdenadosCorretos | src/data/mockData.ts:270 | The months are every month key once, in strictly ascending text order, which is chronological order. |
| Recorrencia.SomaLinhaSobre | src/data/mockData.ts:274-284 | A row's cells add up to the customer's purchases over the listed months. |
| Recorrencia.LinhaSoma | src/data/mockData.ts:273-285 | A customer's row adds up to all their purchases. |
| Recorrencia.RecorrenciaTamanho | src/data/mockData.ts:234-288 | The heatmap has min(20, customers) × months cells, and none for no sales. |
| Painel.Opcoes | src/App.tsx:27-29 | An option list is the sentinel, then each value once, and exactly the values. |
| Painel.OpcoesOrdem | src/App.tsx:27-29 | After the sentinel, values come in the order of first appearance. |
| Painel.NaProjecao | src/App.tsx:27-29 | A value is among the mapped values exactly when some sale has it. |
| Painel.Canais | src/App.tsx:27 | `canais` is `'todos'` then every channel of the sales, each once. |
| Painel.Regioes | src/App.tsx:28 | `regioes` is `'todas'` then every region of the sales, each once. |
| Painel.Categorias | src/App.tsx:29 | `categorias` is `'todas'` then every category of the sales, each once. |
| Painel.AplicarFiltros | src/App.tsx:32-60 | The four conditional filters in a row keep exactly what one filter on the conjunction of the active tests keeps. |
| Painel.FiltradosCorretos | src/App.tsx:33-59 | A sale is kept exactly when it is one of the sales and passes every active filter, and the kept sales stay in order. |
| Painel.FiltradosSubsequencia | src/App.tsx:33-59 | The filtered list is an order-preserving subsequence of the sales. |
| Painel.SemFiltroMantemTudo | src/App.tsx:33-59 | With all four selections at their sentinels the filtered list is the whole list. |
| Painel.PeriodoCasa | src/App.tsx:36-42 | A well-formed `MM/YYYY` selection passes a sale exactly when it is that sale's label. |
| Painel.PeriodoIgnoraResto | src/App.tsx:37 | Only the first two pieces of the selection are read, so text after a second `/` is ignored. |
| Painel.PeriodoSemBarra | src/App.tsx:37-40 | A selection without `/` has no year piece and passes no sale. |
| Painel.FiltroDoMes | src/App.tsx:36-42 | A period selection alone keeps exactly the sales of that month. |
| Painel.FiltradosMantem | src/App.tsx:33-59 | A sale that passes every active filter is among the filtered sales. |
| Painel.CanalSelecionavel | src/App.tsx:45-47 | Selecting any offered channel alone keeps at least one sale. |
| Painel.RegiaoSelecionavel | src/App.tsx:50-52 | Selecting any offered region alone keeps at least one sale. |
| Painel.CategoriaSelecionavel | src/App.tsx:55-57 | Selecting any offered category alone keeps at least one sale. |
| Painel.RotulosAnexar | src/App.tsx:64-68 | One loop step adds the sale's label to the Set. |
| Painel.ExtrairPeriodos | src/App.tsx:63-80 | The loop and sort compute the specified period list. |
| Painel.RotulosValidos | src/App.tsx:66-67 | Every collected label is well formed. |
| Painel.PeriodosEmOrdem | src/App.tsx:70-79 | The sorted labels are in comparator order. |
| Painel.PeriodosSemRepeticao | src/App.tsx:70-79 | The sorted labels hold each label once. |
| Painel.PeriodosMembros | src/App.tsx:63-80 | The sorted labels are exactly the labels of the sales, all well formed. |
| Painel.PeriodosRotulos | src/App.tsx:63-80 | `periodos` is `'todos'`, then every month with a sale, once each, as a well-formed label. |
| Painel.PeriodosPar | src/App.tsx:70-79 | Of two sorted distinct labels, the earlier is the earlier month. |
| Painel.RotulosCrescentes | src/App.tsx:70-79 | Sorted distinct labels ascend strictly by (year, month). |
| Painel.CrescentesAposPrimeiro | src/App.tsx:70-80 | Putting `'todos'` in front of labels that ascend strictly keeps the labels after it ascending. |
| Painel.PeriodosCrescentes | src/App.tsx:70-79 | After `'todos'` the periods ascend strictly by (year, month). |
| Painel.PeriodoSelecionavel | src/App.tsx:36-42 | Selecting any offered period alone keeps at least one sale. |
| Painel.ValoresCsv | src/App.tsx:107 | A sale yields one CSV value per field name. |
| Painel.ConteudoCsv | src/App.tsx:101-111 | The export fails exactly when there is no sale, because `dadosFiltrados[0]` is undefined. |
| Painel.JuntarSem | src/App.tsx:103-111 | Joining texts without a character, by a separator without it, gives a text without it. |
| Painel.NumericoLimpo | src/App.tsx:107 | A number's text holds no `;` and no newline. |
| Painel.DataLimpa | src/App.tsx:107 | A date holds no `;` and no newline. |
| Painel.RotulosLimpos | src/App.tsx:107 | The written channel, sex and age-bracket labels hold no `;` and no newline. |
| Painel.ValoresLimpos | src/App.tsx:107 | When the free-text fields hold no separator, no CSV value does. |
| Painel.LinhaCsvCampos | src/App.tsx:106-108 | Such a sale's line is a single line that splits at `;` back into its values. |
| Painel.NomesLimpos | src/App.tsx:103 | No field name holds a separator. |
| Painel.CabecalhoCampos | src/App.tsx:103 | The header splits at `;` back into the field names. |
| Painel.CabecalhoUmaLinha | src/App.tsx:103 | The header is a single line. |
| Painel.CsvLinhas | src/App.tsx:101-111 | When no free-text field holds a separator, the CSV text splits at newlines into the header and one line per sale. |
| Painel.CsvLegivel | src/App.tsx:101-111 | The CSV text has one line more than there are sales. The first line splits into the field names and line `i + 1` into the values of sale `i`. This holds when no free-text field holds `;` or a newline. |

## Left out

- Random data generation (`gerarDadosFicticios`, `src/data/mockData.ts:17-76`) and `gerarInsights` (`src/data/mockData.ts:82-97`): both depend on `Math.random` and the clock. The sale list is a parameter everywhere.
- Floating point: amounts are exact integer cents. `parseFloat(x.toFixed(2))` is then the identity and is left out. The average ticket is an exact `real`, with `None` for the empty list (JavaScript's `NaN`). It is not a precondition.
- Painel.ValoresCsv: `String` of an amount is written from cents and drops trailing zeros. Binary floating-point formatting is not modelled.
- `Object.entries` puts integer-like keys (such as `"123"`) first, in numeric order. The model keeps insertion order for every key. For entry order this matches the source on the keys it produces: month keys, channel, region, product and bracket names, customer ids. Order is the only thing this line covers; the next one is about key names.
- Keys that name members of `Object.prototype` are treated as ordinary dictionary keys. Such names are `"constructor"`, `"toString"`, `"valueOf"`, `"hasOwnProperty"` and `"__proto__"`. The affected dictionaries are keyed by product (`src/data/mockData.ts:156-162`), region (`src/data/mockData.ts:188-194`) and customer id (`src/data/mockData.ts:238-250`). The source behaves differently on these names:
  - For an inherited function the test `!r[k]` is false, so the slot is not set to 0. `+= VALOR` then builds a string, and the later `toFixed(2)` throws.
  - A `"__proto__"` key is not stored, so its sales drop out of `Object.entries`.
  - A customer id `"constructor"` or `"__proto__"` writes its month counts onto `Object` or `Object.prototype`, and never reaches the heatmap.

  The members below state what the source computes only for product names, regions and customer ids that are not such names:
- Agrupamento.SomarPorChave: a key naming an `Object.prototype` member is summed like any other key; the source throws or drops it.
- Agrupamento.SomasCorretas: holds of the source only when no key names an `Object.prototype` member.
- Agrupamento.SomasConservam: for a `"__proto__"` key the source loses those sales, so its sums do not add up to the total.
- Analise.CalcularTopProdutos: a product named like an `Object.prototype` member makes the source throw at `toFixed`, or drop that product.
- Analise.CalcularDistribuicaoPorRegiao: the same for region names.
- Recorrencia.RegistrarVenda: a customer id `"constructor"` or `"__proto__"` is recorded like any other; the source writes onto `Object` or `Object.prototype` instead.
- Recorrencia.AcumularCompras: the same for the whole loop.
- Recorrencia.CalcularRecorrenciaCompra: such a customer is in the model's heatmap and not in the source's.
- Recorrencia.RecorrenciaTamanho: the cell count assumes every customer id is an ordinary key.
- Recorrencia.GradeCelula: the cells assume every customer id is an ordinary key.
- `parseInt`: leading whitespace and a sign are not modelled. Every text it is given starts with a digit.
- Strings are sequences of characters. UTF-16 code units, surrogate pairs and locale rules are not modelled. This affects `substring(0, 8)` and the default `sort()`.
- Dates: only the `YYYY-MM-DD` shape is required, not calendar validity. No part of the core reads the day.
- Recorrencia.Abreviar: ids longer than eight characters can share an abbreviation. The generated ids `CLI` plus six digits do: `Recorrencia.AbreviarColide` shows two of them with the same abbreviation. The model states the prefix and its length, and nothing about distinctness.
- The set of month keys is modelled as a set plus an ordered list. The order in which months reach that Set is not modelled, because `Recorrencia.OrdenarMesmoConjunto` shows the sort erases it.
- React state, effects and their scheduling, dark mode and the DOM (`src/App.tsx:83-98`): the model computes what the effects compute from their inputs.
- The Blob and anchor download (`src/App.tsx:114-122`): the model stops at the CSV text.
- The chart components, `src/components/Filtros.tsx`, `Footer.tsx` and `InsightGenerator.tsx`: rendering and timers only.
- `src/data/exportData.ts`: it is `JSON.stringify` plus a download.
- `src/examples/ApiIntegration.tsx`: it is network access, pagination and UI.
