# Farmácia: a verified model of the sale engine

This project models the core of a single-pharmacy point-of-sale program. The
program keeps in-memory dicts of clients (keyed by CPF), laboratories and
medications (keyed by name). It supports these operations:

- register clients, laboratories and medications;
- search the catalog by exact name, by laboratory name, or by a fragment of the description;
- build a sale over several rounds of the add-item loop: a running subtotal, positive quantities only, and an alert for prescription-only chemotherapy medications;
- apply one discount, never stacked: 20% for clients older than 65, or 10% for a subtotal above R$150;
- on confirmation, commit the sale and fold every line into per-name statistics and two category counters;
- print sorted listings and an end-of-day report with the number of clients served and the best seller.

The program exists twice: in the monolithic `farmacia.py` and in the modular
`services.py`, `relatorios/gerador_relatorios.py` and `entidades/`. Both copies
share one model, and each row below cites the lines it models in either copy.

The modules follow the program's structure:

- `Entidades`: the records and `Cliente.idade`.
- `Desconto`: the discount policy as a pure function.
- `Catalogo`: the three searches and the numbered choices.
- `Carrinho`: cart lines, the subtotal, the alert, and one round of the add-item loop as a function of the operator's answers.
- `Estatisticas`: the per-name dict and the category counters as folds over the sold lines.
- `Relatorios`: the listings and the end-of-day report.
- `Farmacia`: the session state as a class.
  - Its methods change the state: the registrations and the sale.
  - Its loops are proved against the functions above.

Helper modules:

- `Dicts` models a Python dict as an insertion-ordered list of key/value pairs, so the order of `.values()` and `max` over `.items()` is part of the model.
- `Sorting` models `sorted(key=...)` as a stable insertion sort.
- `Strings` holds ASCII case mapping, lexicographic order and substring search.
- `Sequences` holds the list comprehension filter.

Money is `real`, which is exact. Today's date, the commit time and every console answer are parameters.

The best seller is taken with Python's `max`, which returns the first maximal entry in dict order; the model does the same.

## Model

| member | source | states |
|---|---|---|
| Entidades.Idade | entidades/cliente.py:18-24 | The age is the year difference exactly when today's (month, day) is not before the birthday, and one less exactly when it is. The age-th anniversary is not after today while the next one is. A birth date not after today gives an age of at least 0. |
| Entidades.IdadeIsCompletedYears | entidades/cliente.py:19 | The age is the number of completed years: `n <= Idade` iff the n-th anniversary is not after today. |
| Entidades.SufixoReceitaFlag | entidades/medicamento.py:39-41 | A chemotherapy medication's text ends in "Receita: Sim" iff it needs a prescription, and in "Receita: Não" iff it does not. A phytotherapy medication adds no prescription label. |
| Desconto.TaxaAplicada | farmacia.py:366-373 | The rate is 0.20 iff age > 65, 0.10 iff age ≤ 65 and subtotal > 150, and 0 iff neither threshold is passed. It is the larger of the two rates, is one of them, and is below their sum, so the rates never stack. |
| Desconto.Orcar | farmacia.py:373-375 | Discount = subtotal × rate and total = subtotal − discount. With a subtotal of at least 0 the total lies between 80% of the subtotal and the subtotal. Without a discount the total is the subtotal. |
| Desconto.Fronteiras | services.py:226-229 | Both thresholds are strict: age 65 and subtotal 150.00 earn nothing, age 66 and 150.01 do. Both conditions together give 20%. A R$40 cart pays R$40. |
| Catalogo.Buscar | services.py:123-143 | An exact-name search returns at most one medication, and it returns one iff the name is a key; that one is `medicamentos[termo]`. An invalid option returns nothing. |
| Catalogo.BuscarPorLaboratorio | services.py:128-132 | A medication is in the laboratory search iff it is in the catalog and its lower-cased laboratory name equals the lower-cased term. |
| Catalogo.BuscarPorDescricao | services.py:133-137 | A medication is in the description search iff it is in the catalog and the lower-cased term occurs in its lower-cased description. |
| Catalogo.BuscarNoCatalogo | farmacia.py:263-284 | Every search result is a medication of the catalog. |
| Catalogo.BuscarDescricaoVazia | services.py:133-137 | An empty description term occurs in every description, so that search lists the whole catalog in dict order. |
| Catalogo.ZeroEscolheUltimo | farmacia.py:327-332 | As written, answering 0 at the numbered prompt selects the last result instead of being rejected. |
| Catalogo.IndicePython | farmacia.py:327-332 | Python's `lista[escolha - 1]` as written: it succeeds iff the answer is an integer in -n+1..n, and it then picks entry `escolha` counting from 1 for a positive answer, or entry `n + escolha` for an answer of 0 or below, counting from the end. |
| Catalogo.Escolher | farmacia.py:327-332 | The numbered choice succeeds iff the answer is an integer in 1..n, and it then yields the entry of that number, counting from 1. |
| Catalogo.EscolherConcordaComPython | services.py:185-190 | Every choice the corrected rule accepts is the one Python's indexing makes. The two differ exactly on the answers -n+1..0: the corrected rule rejects them, while Python picks the entry counted from the end. |
| Catalogo.EscolherLaboratorio | services.py:44-58 | A laboratory is chosen iff the answer is an integer in 1..n of the registered laboratories. The chosen one is the entry of `laboratorios.values()` with the answered number, counting from 1. With none registered nothing is chosen. |
| Carrinho.SubtotalNaoNegativo | farmacia.py:306-345 | With prices of at least 0 and positive quantities the subtotal is not negative. |
| Carrinho.NomesControladosSpec | farmacia.py:347-350 | A name is in the prescription alert iff some cart line is a prescription-only chemotherapy medication of that name. |
| Carrinho.FitoterapicosSemAlerta | farmacia.py:347-350 | A cart of phytotherapy medications raises no alert. |
| Carrinho.ExecutarPasso | farmacia.py:311-354 | One round of the add-item loop, case by case. With no results, nothing is added and the loop goes on iff "try another search" is "S". With several results, a number outside 1..n adds nothing and the loop goes on. A quantity that is not a positive integer adds nothing and the loop goes on. Otherwise the selected medication is added with the answered quantity: the only result, or the result of the answered number. After that the loop goes on iff the answer is "S". An added line always has a positive quantity and a medication found by the search. |
| Carrinho.Coletar | farmacia.py:311-354 | The cart the whole loop builds, one round after another while the loop goes on; each round adds at most one line, so the cart has no more lines than rounds. |
| Carrinho.ColetarAvanca | farmacia.py:311-354 | After each round, the cart so far followed by what the remaining rounds add is the cart of the whole loop. When the round stops the loop, the cart so far is the whole cart. |
| Carrinho.ColetarDoCatalogo | services.py:194-203 | Every cart line has a positive quantity and a medication of the catalog. |
| Carrinho.PassoRejeitado | farmacia.py:336-342 | A round that adds nothing and goes on, such as one whose quantity is not positive, leaves the cart as the later rounds build it. |
| Estatisticas.RegistrarTodosConcat | farmacia.py:395-407 | Folding two carts one after the other is folding their concatenation. |
| Estatisticas.RegistrarConsulta | farmacia.py:397-399 | After one line is folded, its name looks up the previous totals, or (0, 0) when the name was new, grown by `qt` and `preco*qt`. Every other name looks up exactly what it did before. |
| Estatisticas.RegistrarTodosPorNome | services.py:253-257 | After a fold, each name's quantity and value are the old ones plus what the folded lines of that name sold. |
| Estatisticas.RegistrarDistinct | farmacia.py:399 | Folding a line keeps the statistics dict free of duplicate keys. |
| Estatisticas.RegistrarTodosDistinct | farmacia.py:395-399 | Folding a whole cart keeps the statistics dict free of duplicate keys. |
| Estatisticas.SomaQtdesPut | farmacia.py:399 | Assigning an entry changes the sum of the quantities by the new entry's quantity minus the old one. |
| Estatisticas.SomaQtdesRegistrar | farmacia.py:397-399 | Folding a line adds its quantity to the sum of all quantities in the dict. |
| Estatisticas.SomaQtdesRegistrarTodos | farmacia.py:395-399 | Folding a cart adds the sum of its quantities to the sum of all quantities in the dict. |
| Estatisticas.RegistrarCategoriasConcat | farmacia.py:401-407 | The category counters fold carts one after another as they fold their concatenation. |
| Estatisticas.CategoriasSomam | services.py:259-265 | The chemotherapy counters grow by exactly the quantity and the value of the chemotherapy lines. Both counters together grow by the quantity and value of all lines, so the phytotherapy counters grow by the rest. |
| Estatisticas.NovaVenda | farmacia.py:390-407 | Committing one more sale extends the statistics and the counters by exactly that sale's lines. |
| Estatisticas.EstatisticasDoHistorico | farmacia.py:395-407 | The statistics of a session are the sums over all committed lines: per name, in total, and across the two categories. |
| Relatorios.ListarClientes | relatorios/gerador_relatorios.py:5-13 | The client listing is a permutation of the registered clients, sorted by lower-cased name. |
| Relatorios.ListarClientesEstavel | relatorios/gerador_relatorios.py:11 | Clients whose lower-cased names are equal are listed in registration order, as Python's stable sort keeps them. |
| Relatorios.ListarTodosMedicamentos | relatorios/gerador_relatorios.py:16-24 | The medication listing is a permutation of the catalog, sorted by lower-cased name. |
| Relatorios.ListarTodosMedicamentosEstavel | relatorios/gerador_relatorios.py:22 | Medications whose lower-cased names are equal keep catalog order. |
| Relatorios.ListarMedicamentosPorTipo | relatorios/gerador_relatorios.py:27-42 | With an empty catalog nothing is listed. Otherwise the listing is rejected iff the upper-cased type is neither "Q" nor "F". |
| Relatorios.ListarPorTipoMonolito | farmacia.py:435-462 | The monolith's listing by type. With an empty catalog nothing is listed. Otherwise an option other than "1" or "2" is rejected. An accepted listing is sorted by lower-cased name and is a permutation of the catalog's medications of the chosen variant: chemotherapy for "1", phytotherapy for "2". |
| Relatorios.ListarPorTipoExato | relatorios/gerador_relatorios.py:32-41 | An accepted listing is sorted by lower-cased name and is a permutation of the catalog's medications of that variant. A medication appears in it iff it is in the catalog and of that variant. |
| Relatorios.ListagensConcordam | farmacia.py:435-462 | The monolith's listing (option "1"/"2": filter, then sort) equals the modular listing (type "Q"/"F": sort, then filter). |
| Relatorios.IndiceMaisVendido | farmacia.py:477-480 | The chosen position holds a maximal quantity, and every earlier position holds a strictly smaller one. |
| Relatorios.MaisVendido | relatorios/gerador_relatorios.py:52-60 | There is no best seller iff the dict is empty. Otherwise the best seller is an entry of the dict, no entry sold more units, and among entries that sold as many it is the first. |
| Relatorios.GerarRelatorio | relatorios/gerador_relatorios.py:45-64 | The clients served are the number of committed sales. The counters reported are the session's counters. The best seller is `MaisVendido` of the dict: reported iff something was sold, with the largest quantity, and the first such entry in dict order on a tie. |
| Relatorios.MaisVendidoPorNome | farmacia.py:479-481 | The best seller's figures are the dict's figures for its name. |
| Relatorios.MaisVendidoMaximo | relatorios/gerador_relatorios.py:54-55 | No name in the dict has more units than the best seller. |
| Relatorios.RelatorioDoHistorico | farmacia.py:465-487 | For the state a session builds, the report's best seller has the quantity and value its lines sold. No name sold more units. Before any line is sold there is no best seller. The category counters add up to all units sold. |
| Farmacia.Farmacia.constructor | data.py:7-19 | The session starts with empty dicts, no sales, empty statistics and zero counters, and the store invariant holds. |
| Farmacia.Farmacia.CadastrarCliente | services.py:11-26 | A known CPF is refused before the date is read. A date that does not parse is refused. Otherwise exactly one client is appended under its CPF. Every refusal leaves the dicts unchanged, nothing else ever changes, and the store invariant is kept. |
| Farmacia.Farmacia.CadastrarLaboratorio | services.py:29-41 | A known name is refused with the dict unchanged. Otherwise the laboratory is appended with its state upper-cased. |
| Farmacia.Farmacia.CadastrarMedicamento | services.py:61-98 | The checks run in the source's order, and the first to fail gives the outcome: an unknown type, then a duplicate name, then a laboratory choice outside 1..n ("no laboratory" when none is registered, "invalid laboratory" otherwise), then a missing or negative price. The medication is registered iff all four pass, including a price that parses and is at least 0. "Q" appends a chemotherapy medication whose flag is the answer "S". "F" appends a phytotherapy one. Every refusal leaves the catalog unchanged. |
| Farmacia.Farmacia.BuscarClientePorCpf | farmacia.py:242-244 | A client is found iff the CPF is registered. |
| Farmacia.Farmacia.BuscarClienteEncontraOCpf | services.py:101-103 | In a valid store the client found has that CPF and is registered. |
| Farmacia.Farmacia.BuscarMedicamentos | services.py:106-143 | The loops over `medicamentos.values()` return exactly the specified search, in dict order. |
| Farmacia.Farmacia.Rodada | services.py:169-212 | One round of the loop has exactly the effect that `ExecutarPasso` specifies. |
| Farmacia.Farmacia.Acrescentar | farmacia.py:344-350 | Appends the round's line, if any, and keeps the subtotal equal to the sum of the lines. The alert stays equal to the controlled names, and the flag is set iff the alert is not empty. |
| Farmacia.Farmacia.ColetarItens | farmacia.py:306-354 | The add-item loop returns the cart that the rounds specify, in insertion order. The subtotal is its `preco*qtde` sum. The alert is its list of controlled names, and the flag is set iff that list is not empty. |
| Farmacia.Farmacia.RealizarVenda | farmacia.py:288-409 | An unknown CPF, an empty cart, or a confirmation other than "S" each end the sale with the sales list and every statistic unchanged. Otherwise exactly one sale is appended. It holds the cart, the client and the discounted total of `Orcar`, and its lines are folded into the statistics and the counters. The alert never blocks the sale, and the store invariant is kept. |
| Farmacia.Farmacia.RegistrarVenda | services.py:248-265 | The commit appends the sale and folds its lines into the statistics and the counters, keeping them equal to the fold of the whole history. |
| Farmacia.Farmacia.AtualizarEstatisticas | farmacia.py:395-407 | The commit loop leaves the statistics and the counters as the fold of all the cart's lines. |
| Farmacia.Farmacia.RegistrarLinha | farmacia.py:396-407 | One commit round updates the line's name entry, defaulting to (0, 0), and the counters of the line's variant. |

## Left out

- Console I/O: every `input`/`print` and the menu loops of `main.py` and `farmacia.py:491-553` are left out. The answers become parameters, such as the `Passo` rounds of the add-item loop.
- The add-item loop stops when its sequence of answers runs out. The program would instead raise EOFError at the next `input`.
- `datetime.date.today()` and `datetime.datetime.now()` become parameters. `strptime`, `int(...)` and `float(...)` are parsers that may fail, modelled as an `Option` of the parsed value.
- Floating point: prices and totals are exact `real`s.
- The `:.2f` formatting is left out.
- The discount label is left out. It is chosen by the float comparison `desconto_aplicado == 0.20`, and its text says ">= R$150" although the rule is a strict `>`.
- `.strip()` is left out. The answers are taken as already stripped.
- `.lower()` and `.upper()` are modelled on ASCII letters only.
- The `__str__` methods are left out, except the prescription label of the chemotherapy variant.
- The constructors of the entities are the datatype constructors. They store their arguments unchanged by definition, so no lemma states it.
- A medication holds its laboratory by value, not by reference to the stored object. Laboratories are never updated, so the value is the same.
- Farmacia.Farmacia.ColetarItens, Farmacia.Farmacia.RealizarVenda, Farmacia.Farmacia.Rodada, Farmacia.Farmacia.CadastrarMedicamento, Carrinho.ExecutarPasso, Carrinho.Coletar and Catalogo.EscolherLaboratorio use the corrected numbered choice `Escolher` (or its 1..n rule). An answer of 0 or below is rejected there, while the program picks a result counted from the end of the list; `Catalogo.IndicePython` keeps the program's behaviour (see Findings).
- services.py imports the category counters by value and rebinds them with `global`. So the counters that `exibir_estatisticas_dia` reads never change. The dicts and the sales list are shared objects that services.py mutates in place and the reports read. Of the statistics, only the per-name dict is shared; the category counters are rebound in services.py alone. The model keeps one state object, as `farmacia.py` does, so its report shows the counters the commit updates.

## Findings

| source | as written | input that shows it | evidently intended | confidence | as-written member | corrected member |
|---|---|---|---|---|---|---|
| farmacia.py:327-332 | `encontrados[escolha - 1]` uses Python's negative indexing | answer 0 at "Escolha o número do medicamento" with two or more results | only 1..n are accepted; 0 or a negative number is an invalid choice | not executed | Catalogo.ZeroEscolheUltimo | Catalogo.Escolher |
| services.py:185-190 | the same indexing in the modular sale | answer 0 with two or more results adds the last result | only 1..n are accepted | not executed | Catalogo.ZeroEscolheUltimo | Catalogo.Escolher |
| farmacia.py:193-199 | `lista_labs[escolha - 1]` in the laboratory choice | answer 0 with at least one laboratory registered picks the last laboratory | only 1..n are accepted | not executed | Catalogo.ZeroEscolheUltimo | Catalogo.Escolher |
| services.py:52-58 | the same indexing in the modular laboratory choice | answer 0 picks the last laboratory | only 1..n are accepted | not executed | Catalogo.ZeroEscolheUltimo | Catalogo.Escolher |

`Catalogo.IndicePython` is Python's indexing as written. `Catalogo.EscolherConcordaComPython` shows that the two rules agree on every answer from 1 to n and differ exactly on -n+1..0. The model uses the corrected `Escolher` throughout.
