# Gama-Sistemas sales dashboard: data logic of `app.js`

Gama-Sistemas is a single-page client and sales tracker. Its `app.js`
renders clients, products and sales from a local store and derives the
dashboard figures from them. This project models the data logic inside
that file's DOM code. The store's three collections (`clientes`,
`produtos`, `vendas`) are plain sequences passed in. The model covers:

- **Dashboard aggregation** (`renderDashboard`). It computes:
  - the total received, a filter-and-sum over `'Pago'` sales;
  - the total receivable, the same over `'A pagar'` sales;
  - the sale count;
  - the clients whose status is `'A pagar'`;
  - the revenue grouped by resolved product name, which feeds the chart's
    labels and data.
- **The sales report** (`generateSalesReportPDF`). One loop builds one row
  per sale and adds up both totals in running variables. The loop's totals
  are proved equal to the dashboard's.
- **Name resolution** (`renderSales` and the report). An id→name `Map` is
  built from a collection, and `get(id) || placeholder` reads it. A missing
  id or an empty name both give `'Cliente não encontrado'`,
  `'Produto não encontrado'` or `'N/A'`. `products.find` stands beside it.
- **The sale form** (`setupSaleForm`).
  - `calculateTotal` updates the previewed total.
  - The save handler builds the record passed to `db.save`, or stops first.

Modules, leaf first:
- `Wrappers`: the `Option` and `Result` datatypes.
- `Records`: the entities.
- `Filters`: `Array.prototype.filter`.
- `Lookup`: name maps, placeholders and `find`.
- `Dashboard`: the aggregates.
- `Render`: the sales table rows.
- `Report`: the PDF report's data.
- `SaleForm`: the form handlers.

Money is integer cents. Status is the stored string, so a sale whose status
is neither `'Pago'` nor `'A pagar'` can be represented. Such a sale counts
toward neither total.

Behaviours of the code that the model keeps:
- `new Map(entries)` lets a later entry with a repeated id overwrite an
  earlier one, so the table and the report show the name of the LAST client
  with that id. `products.find` returns the FIRST product with the id. The
  model keeps both behaviours (`NameMap` and `FindProduct`).
- An id that matches no product: reading `preco` of `undefined` throws a
  `TypeError` before `db.save` (app.js:220-221). This is modelled as
  `Err(ProductNotFound)`.
- Quantity is checked only by `form.checkValidity()` (app.js:218), which the
  model takes as a boolean input.
- The handler never sets `data` on create (app.js:223-236). The handler's
  record has a date only when a stored sale with the same id was found.
- Revenue is grouped by product name, not by id, so two products with the
  same name share one group. The model keeps this.

## Model

| member | source | states |
|---|---|---|
| `Lookup.NameMapSpec` | app.js:36-37 | The id→name map holds exactly the ids present in the collection, each bound to the name of the last record with that id. |
| `Filters.Filter` | app.js:68 | `Array.prototype.filter`: the result is no longer than the input; FilterMembers and FilterAppend state which elements it keeps and in what order. |
| `Dashboard.TotalRecebido` | app.js:68 | `vendas.filter(v => v.status === 'Pago').reduce(sum + valorTotal, 0)`; TotalsEmpty and TotalsStep characterise it. |
| `Dashboard.TotalAReceber` | app.js:69 | `vendas.filter(v => v.status === 'A pagar').reduce(sum + valorTotal, 0)`; TotalsEmpty and TotalsStep characterise it. |
| `Dashboard.SumValor` | app.js:68-69 | The reduce that sums `valorTotal` from 0; SumValorAppend characterises it. |
| `Dashboard.GroupTotal` | app.js:86 | Reading a name's accumulated total, 0 when absent; AbsentTotal and GroupTotalAt characterise it. |
| `Dashboard.ClientesAPagar` | app.js:78 | `clientes.filter(c => c.status === 'A pagar')`; ClientesAPagarSpec characterises it. |
| `Dashboard.Accumulate` | app.js:86 | `acc[produto.nome] = (acc[produto.nome] \|\| 0) + venda.valorTotal`; AccumulateSpec characterises it. |
| `Dashboard.RevenueByProduct` | app.js:83-89 | The `vendas.reduce` that builds `vendasPorProduto`; RevenueByProductSpec and RevenueByProductSum characterise it. |
| `Lookup.NameMap` | app.js:36-37 | `new Map(clients.map(c => [c.id, c.nome]))` (and the product map); NameMapSpec characterises it. |
| `Lookup.Label` | app.js:41-42 | `get(id) \|\| placeholder` returns the placeholder or the mapped name, and is never empty when the placeholder is not. |
| `Lookup.LabelSpec` | app.js:36-42 | A missing id gives the placeholder. Otherwise the last record with the id gives its name, or the placeholder when that name is empty. The label is never empty. |
| `Lookup.FindProduct` | app.js:84 | `find` returns nothing exactly when no product has the id, and otherwise the first product with that id. |
| `Filters.FilterAppend` | app.js:68 | Filtering a concatenation gives the concatenation of the filtered parts, so stored order is kept. |
| `Filters.FilterMembers` | app.js:68 | An element is in the filtered list exactly when it is in the input and the predicate accepts it. |
| `Dashboard.TotalsEmpty` | app.js:68-69 | Both totals of no sales are 0, the `reduce` start value. |
| `Dashboard.TotalsStep` | app.js:68-69 | Appending a sale adds its value to the 'Pago' total when its status is 'Pago', to the 'A pagar' total when its status is 'A pagar', and otherwise changes neither. |
| `Dashboard.TotalsPrefixStep` | app.js:270-272 | The same step, stated for the first i+1 sales of a list, as the report's loop takes it. |
| `Dashboard.OtherStatusCountsNowhere` | app.js:68-69 | Inserting a sale of any other status anywhere in the list leaves both totals unchanged. |
| `Dashboard.TotalsPartition` | app.js:68-69 | When every status is 'Pago' or 'A pagar', the two totals add up to the value of all sales. |
| `Dashboard.ClientesAPagarSpec` | app.js:78-80 | The outstanding-clients list holds exactly the 'A pagar' clients, in stored order. Filtering distributes over concatenation, and one client maps to itself or to nothing. |
| `Dashboard.Labels` | app.js:91 | `Object.keys` of the grouping has one entry per group, the group's name at the same index. |
| `Dashboard.Values` | app.js:92 | `Object.values` of the grouping has one entry per group, the group's total at the same index. |
| `Dashboard.AccumulateSpec` | app.js:86 | `acc[nome] = (acc[nome] \|\| 0) + v` adds v under nome and leaves every other name unchanged. The names stay distinct, the key set gains nome, and the grand total grows by v. |
| `Dashboard.AbsentTotal` | app.js:86 | A name that is not yet a key reads as 0. |
| `Dashboard.GroupTotalAt` | app.js:91-92 | With distinct keys, looking up a key gives the value stored at its index. |
| `Dashboard.RevenueByProductSpec` | app.js:83-89 | The grouping's keys are distinct and are exactly the names some sale's product resolves to. Each key's total equals the filter-and-sum value of the sales resolving to a product of that name. |
| `Dashboard.UnresolvedSaleSkipped` | app.js:84-87 | A sale whose product id matches no product leaves the grouping unchanged. |
| `Dashboard.SharedNameOneGroup` | app.js:83-89 | A resolved product name has exactly one group, whatever the number of product ids with that name. The group holds their combined revenue. |
| `Dashboard.RevenueByProductSum` | app.js:83-89 | The group totals add up to the value of exactly the sales whose product resolves. |
| `Dashboard.RevenueMatchesTotals` | app.js:68-89 | When every status is 'Pago' or 'A pagar', the chart's grand total is the received plus the receivable total of the sales whose product resolves. |
| `Dashboard.RenderDashboard` | app.js:63-92 | The view carries both totals, the sale count (the number of sales) and the 'A pagar' clients. Chart labels and data have equal length and distinct labels. The labels are exactly the resolved product names, and the data at each index is the revenue of the label at that index. |
| `Render.RenderSales` | app.js:28-60 | One row per sale, in order. Client and product are resolved through the id→name maps with their placeholders and are never empty. The other fields are copied from the sale. The badge is "success" exactly for 'Pago'. |
| `Report.SalesReport` | app.js:263-281 | The loop's running totals equal the dashboard's filter-and-sum totals. There is one row per sale, in order, naming the client or 'N/A' and carrying the sale's date, status and value. |
| `SaleForm.SubmitSale` | app.js:217-238 | An invalid form saves nothing. A valid form saves nothing exactly when no product has the selected id. Otherwise the record's total is the first such product's price times the quantity. The record takes its id (absent when the field is empty) and its other fields from the form. Its date is copied from the stored sale with that id when one exists, and is absent otherwise. |
| `SaleForm.SaleFormView.CalculateTotal` | app.js:200-212 | With a product selected and quantity > 0, the preview becomes the first matching product's price times the quantity, or stays unchanged when no product matches. With no product selected or quantity ≤ 0 it becomes 0. |

## Left out

- DOM rendering: `innerHTML` templating, modals, hash navigation (`showPage`, `handleNavigation`) and the login, signup and app page toggles. The model keeps the data each table row or figure shows, not its markup.
- Chart.js drawing (app.js:94-115) and jsPDF/autoTable layout (app.js:260-261, 283-299): calls into library code. Only the data handed to them is modelled.
- `toLocaleString` and `toLocaleDateString` formatting: host-library, locale-dependent. Amounts stay in cents and dates stay the stored timestamp.
- `confirm` and `alert` dialogs, and the authentication flow of `auth.js` (`checkAuth`, `login`, `logout`). `auth.js` is not part of this model.
- `db.js` (`getAll`, `getById`, `save`, `remove`, `_dangerouslyClearTable`, `init`) is not part of this model. Its collections are input sequences, and `getById` is a function parameter of `SubmitSale`. Id assignment, persistence and the date a new sale receives in the store are not modelled.
- `setupClientForm`, `renderClients` and the edit/delete/clear button handlers: client-table DOM rendering (with the same badge rule as the sales table), and handlers that copy a stored record into the form fields or pass form values and ids to the store, which is not modelled.
- Floating-point arithmetic of `valorTotal` and `preco * quantidade`: money is exact integer cents.
- `parseInt` parsing and `NaN`: every id and quantity arrives as an integer, and an empty id field arrives as an absent id. For this reason the loose `==` in `calculateTotal` and the strict `===` in the save handler both become integer equality. `calculateTotal` (app.js:202-206) never calls `parseInt`: it converts the quantity text with `Number`, so a fractional quantity such as "2.5" previews `preco × 2.5` while the save handler (app.js:221, 227) stores `preco × 2`. The model's integer quantity does not capture this difference between preview and saved total.
- SaleForm.SaleFormView.CalculateTotal: `selected` is `None` exactly when `productSelect.value` is empty. The disabled placeholder option (app.js:196) has no `value`, so the select reports its text, which is truthy; a caller models it as `Some(k)` with `k` matching no product, and the preview then stays unchanged, as in the source.
- Dashboard.Labels: the model keeps the grouping's keys in insertion order. JavaScript lists integer-like property names (a product named "42") before the others in `Object.keys`.
- Dashboard.Accumulate, Dashboard.GroupTotal, Dashboard.AccumulateSpec and Dashboard.AbsentTotal: the accumulator `{}` (app.js:83) inherits from `Object.prototype`, so for a product named `constructor`, `toString`, `valueOf`, `hasOwnProperty` or `__proto__` the read `acc[produto.nome] || 0` (app.js:86) yields an inherited member rather than 0, and the sum becomes a string; for `__proto__` the write goes through the inherited setter, which ignores a string, so that product gets no group at all. The model treats every name as an ordinary key that starts at 0; inherited `Object.prototype` keys are not modelled.
- `form.checkValidity()` and `reportValidity()`: the browser's validation outcome is the boolean `formValid`.
