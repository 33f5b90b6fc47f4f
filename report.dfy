/** The data of `generateSalesReportPDF`: one table row per sale and the two
    totals, accumulated in the same pass. */
module Report {
  import opened Wrappers
  import opened Records
  import opened Lookup
  import opened Dashboard

  /** Client, date, status and value, as the report table lists them. */
  datatype ReportRow = ReportRow(cliente: string, data: Option<int>, status: string, valorTotal: int)

  /** The report's loop adds each 'Pago' sale to one running total and each
      'A pagar' sale to the other while it maps the sales to rows. Its totals
      are the dashboard's filter-and-sum totals, and its rows follow the sales
      one for one, naming the client or 'N/A'. */
  method SalesReport(vendas: seq<Sale>, clientes: seq<Client>)
    returns (rows: seq<ReportRow>, totalRecebido: int, totalAReceber: int)
    ensures totalRecebido == TotalRecebido(vendas)
    ensures totalAReceber == TotalAReceber(vendas)
    ensures |rows| == |vendas|
    ensures forall i :: 0 <= i < |vendas| ==>
      && rows[i].cliente == Label(NameMap(ClientEntries(clientes)), vendas[i].clienteId, NaoDisponivel)
      && rows[i].cliente != ""
      && rows[i].data == vendas[i].data
      && rows[i].status == vendas[i].status
      && rows[i].valorTotal == vendas[i].valorTotal
  {
    var clientMap := NameMap(ClientEntries(clientes));
    totalRecebido, totalAReceber := 0, 0;
    rows := [];
    var i := 0;
    TotalsEmpty();
    while i < |vendas|
      invariant 0 <= i <= |vendas|
      invariant totalRecebido == TotalRecebido(vendas[..i])
      invariant totalAReceber == TotalAReceber(vendas[..i])
      invariant |rows| == i
      invariant forall k :: 0 <= k < i ==>
        rows[k] == ReportRow(Label(clientMap, vendas[k].clienteId, NaoDisponivel), vendas[k].data, vendas[k].status, vendas[k].valorTotal)
    {
      var sale := vendas[i];
      ghost var before := (totalRecebido, totalAReceber);
      if sale.status == Pago {
        totalRecebido := totalRecebido + sale.valorTotal;
      }
      if sale.status == APagar {
        totalAReceber := totalAReceber + sale.valorTotal;
      }
      assert totalRecebido == TotalRecebido(vendas[..i + 1]) && totalAReceber == TotalAReceber(vendas[..i + 1]) by {
        TotalsPrefixStep(vendas, i);
      }
      rows := rows + [ReportRow(Label(clientMap, sale.clienteId, NaoDisponivel), sale.data, sale.status, sale.valorTotal)];
      i := i + 1;
    }
    assert i == |vendas|;
    assert vendas[..i] == vendas;
  }
}
