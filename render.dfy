/** The rows `renderSales` writes into the sales table, one per sale. */
module Render {
  import opened Wrappers
  import opened Records
  import opened Lookup

  /** The status badge: green for 'Pago', amber for anything else. */
  datatype Badge = Success | Warning

  /** The data of one table row (the date is kept as stored; its locale
      formatting is not modelled). */
  datatype SalesRow = SalesRow(
    data: Option<int>,
    cliente: string,
    produto: string,
    quantidade: int,
    valorTotal: int,
    formaPagamento: string,
    status: string,
    badge: Badge)

  /** `renderSales`: builds the two name maps once, then appends one row per
      sale in order. Every row names a client and a product: the resolved
      non-empty name, or the placeholder. */
  method RenderSales(vendas: seq<Sale>, clientes: seq<Client>, produtos: seq<Product>) returns (rows: seq<SalesRow>)
    ensures |rows| == |vendas|
    ensures forall i :: 0 <= i < |vendas| ==>
      && rows[i].cliente == Label(NameMap(ClientEntries(clientes)), vendas[i].clienteId, ClienteNaoEncontrado)
      && rows[i].produto == Label(NameMap(ProductEntries(produtos)), vendas[i].produtoId, ProdutoNaoEncontrado)
      && rows[i].cliente != "" && rows[i].produto != ""
      && rows[i].data == vendas[i].data
      && rows[i].quantidade == vendas[i].quantidade
      && rows[i].valorTotal == vendas[i].valorTotal
      && rows[i].formaPagamento == vendas[i].formaPagamento
      && rows[i].status == vendas[i].status
      && (rows[i].badge == Success <==> vendas[i].status == Pago)
  {
    var clientMap := NameMap(ClientEntries(clientes));
    var productMap := NameMap(ProductEntries(produtos));
    rows := [];
    var i := 0;
    while i < |vendas|
      invariant 0 <= i <= |vendas|
      invariant |rows| == i
      invariant forall k :: 0 <= k < i ==>
        && rows[k].cliente == Label(clientMap, vendas[k].clienteId, ClienteNaoEncontrado)
        && rows[k].produto == Label(productMap, vendas[k].produtoId, ProdutoNaoEncontrado)
        && rows[k].cliente != "" && rows[k].produto != ""
        && rows[k].data == vendas[k].data
        && rows[k].quantidade == vendas[k].quantidade
        && rows[k].valorTotal == vendas[k].valorTotal
        && rows[k].formaPagamento == vendas[k].formaPagamento
        && rows[k].status == vendas[k].status
        && (rows[k].badge == Success <==> vendas[k].status == Pago)
    {
      var sale := vendas[i];
      var badge := if sale.status == Pago then Success else Warning;
      var clientName := Label(clientMap, sale.clienteId, ClienteNaoEncontrado);
      var productName := Label(productMap, sale.produtoId, ProdutoNaoEncontrado);
      rows := rows + [SalesRow(sale.data, clientName, productName, sale.quantidade, sale.valorTotal,
                               sale.formaPagamento, sale.status, badge)];
      i := i + 1;
    }
  }
}
