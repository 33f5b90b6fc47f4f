/** The figures `renderDashboard` derives from the three collections: the
    received and receivable totals, the sale count, the clients still to
    pay, and revenue grouped by product name for the chart. */
module Dashboard {
  import opened Wrappers
  import opened Records
  import opened Filters
  import opened Lookup

  /** `reduce((sum, v) => sum + v.valorTotal, 0)` */
  function SumValor(vendas: seq<Sale>): int
  {
    if |vendas| == 0 then 0 else SumValor(vendas[..|vendas| - 1]) + vendas[|vendas| - 1].valorTotal
  }

  lemma {:induction false} SumValorAppend(a: seq<Sale>, b: seq<Sale>)
    ensures SumValor(a + b) == SumValor(a) + SumValor(b)
  {
    if |b| == 0 {
      assert a + b == a;
    } else {
      var b' := b[..|b| - 1];
      assert (a + b)[..|a + b| - 1] == a + b';
      SumValorAppend(a, b');
    }
  }

  function HasStatus(status: string): Sale -> bool
  {
    (v: Sale) => v.status == status
  }

  /** `vendas.filter(v => v.status === 'Pago')`, summed. */
  function TotalRecebido(vendas: seq<Sale>): int
  {
    SumValor(Filter(vendas, HasStatus(Pago)))
  }

  /** `vendas.filter(v => v.status === 'A pagar')`, summed. */
  function TotalAReceber(vendas: seq<Sale>): int
  {
    SumValor(Filter(vendas, HasStatus(APagar)))
  }

  /** Both totals of no sales are 0. */
  lemma TotalsEmpty()
    ensures TotalRecebido([]) == 0 && TotalAReceber([]) == 0
  {
  }

  /** Each sale adds its value to the total of its own status and to no
      other; with TotalsEmpty this characterises both totals. */
  lemma TotalsStep(vendas: seq<Sale>, v: Sale)
    ensures TotalRecebido(vendas + [v]) == TotalRecebido(vendas) + (if v.status == Pago then v.valorTotal else 0)
    ensures TotalAReceber(vendas + [v]) == TotalAReceber(vendas) + (if v.status == APagar then v.valorTotal else 0)
  {
    FilterAppend(vendas, [v], HasStatus(Pago));
    FilterAppend(vendas, [v], HasStatus(APagar));
    FilterOne(v, HasStatus(Pago));
    FilterOne(v, HasStatus(APagar));
    SumValorAppend(Filter(vendas, HasStatus(Pago)), Filter([v], HasStatus(Pago)));
    SumValorAppend(Filter(vendas, HasStatus(APagar)), Filter([v], HasStatus(APagar)));
    assert [v][..0] == [];
  }

  /** The loop form of the totals: one step at index `i` of a prefix. */
  lemma TotalsPrefixStep(vendas: seq<Sale>, i: int)
    requires 0 <= i < |vendas|
    ensures TotalRecebido(vendas[..i + 1]) == TotalRecebido(vendas[..i]) + (if vendas[i].status == Pago then vendas[i].valorTotal else 0)
    ensures TotalAReceber(vendas[..i + 1]) == TotalAReceber(vendas[..i]) + (if vendas[i].status == APagar then vendas[i].valorTotal else 0)
  {
    assert vendas[..i + 1] == vendas[..i] + [vendas[i]];
    TotalsStep(vendas[..i], vendas[i]);
  }

  /** A sale whose status is neither 'Pago' nor 'A pagar', wherever it stands,
      counts toward neither total. */
  lemma OtherStatusCountsNowhere(before: seq<Sale>, v: Sale, after: seq<Sale>)
    requires v.status != Pago && v.status != APagar
    ensures TotalRecebido(before + [v] + after) == TotalRecebido(before + after)
    ensures TotalAReceber(before + [v] + after) == TotalAReceber(before + after)
  {
    FilterAppend(before + [v], after, HasStatus(Pago));
    FilterAppend(before + [v], after, HasStatus(APagar));
    FilterAppend(before, after, HasStatus(Pago));
    FilterAppend(before, after, HasStatus(APagar));
    TotalsStep(before, v);
    SumValorAppend(Filter(before + [v], HasStatus(Pago)), Filter(after, HasStatus(Pago)));
    SumValorAppend(Filter(before + [v], HasStatus(APagar)), Filter(after, HasStatus(APagar)));
    SumValorAppend(Filter(before, HasStatus(Pago)), Filter(after, HasStatus(Pago)));
    SumValorAppend(Filter(before, HasStatus(APagar)), Filter(after, HasStatus(APagar)));
  }

  /** When every sale is either 'Pago' or 'A pagar', the two totals together
      are the value of all sales. */
  lemma {:induction false} TotalsPartition(vendas: seq<Sale>)
    requires forall i :: 0 <= i < |vendas| ==> vendas[i].status == Pago || vendas[i].status == APagar
    ensures TotalRecebido(vendas) + TotalAReceber(vendas) == SumValor(vendas)
  {
    if |vendas| > 0 {
      var n := |vendas| - 1;
      TotalsPartition(vendas[..n]);
      assert vendas == vendas[..n] + [vendas[n]];
      TotalsStep(vendas[..n], vendas[n]);
    } else {
      TotalsEmpty();
    }
  }

  function ClientHasStatus(status: string): Client -> bool
  {
    (c: Client) => c.status == status
  }

  /** `clientes.filter(c => c.status === 'A pagar')` */
  function ClientesAPagar(clientes: seq<Client>): seq<Client>
  {
    Filter(clientes, ClientHasStatus(APagar))
  }

  /** The outstanding-clients list keeps exactly the clients whose status is
      'A pagar', in stored order: it maps a concatenation to the
      concatenation of the parts, and one client to itself or to nothing. */
  lemma ClientesAPagarSpec(a: seq<Client>, b: seq<Client>, c: Client)
    ensures ClientesAPagar(a + b) == ClientesAPagar(a) + ClientesAPagar(b)
    ensures ClientesAPagar([c]) == if c.status == APagar then [c] else []
    ensures forall x :: x in ClientesAPagar(a) <==> x in a && x.status == APagar
  {
    FilterAppend(a, b, ClientHasStatus(APagar));
    FilterOne(c, ClientHasStatus(APagar));
    FilterMembers(a, ClientHasStatus(APagar));
  }

  // ---- Revenue per product --------------------------------------------

  /** One property of the `vendasPorProduto` object: a product name and the
      revenue accumulated under it. The object is an insertion-ordered list. */
  datatype Group = Group(nome: string, total: int)

  /** `Object.keys(vendasPorProduto)` */
  function Labels(groups: seq<Group>): (r: seq<string>)
    ensures |r| == |groups| && forall i :: 0 <= i < |groups| ==> r[i] == groups[i].nome
  {
    if |groups| == 0 then [] else [groups[0].nome] + Labels(groups[1..])
  }

  /** `Object.values(vendasPorProduto)` */
  function Values(groups: seq<Group>): (r: seq<int>)
    ensures |r| == |groups| && forall i :: 0 <= i < |groups| ==> r[i] == groups[i].total
  {
    if |groups| == 0 then [] else [groups[0].total] + Values(groups[1..])
  }

  /** An object has each property name at most once. */
  ghost predicate DistinctNames(groups: seq<Group>)
  {
    forall i, j :: 0 <= i < j < |groups| ==> groups[i].nome != groups[j].nome
  }

  /** `acc[nome] || 0` */
  function GroupTotal(groups: seq<Group>, nome: string): int
  {
    if |groups| == 0 then 0
    else if groups[0].nome == nome then groups[0].total
    else GroupTotal(groups[1..], nome)
  }

  function SumGroups(groups: seq<Group>): int
  {
    if |groups| == 0 then 0 else groups[0].total + SumGroups(groups[1..])
  }

  /** `acc[nome] = (acc[nome] || 0) + v`: the property is updated where it
      stands, or appended when it is new. */
  function Accumulate(acc: seq<Group>, nome: string, v: int): seq<Group>
  {
    if |acc| == 0 then [Group(nome, v)]
    else if acc[0].nome == nome then [Group(nome, acc[0].total + v)] + acc[1..]
    else [acc[0]] + Accumulate(acc[1..], nome, v)
  }

  /** Accumulating adds `v` under `nome` and changes no other name; the
      names stay distinct and the grand total grows by `v`. */
  lemma {:induction false} AccumulateSpec(acc: seq<Group>, nome: string, v: int)
    requires DistinctNames(acc)
    ensures DistinctNames(Accumulate(acc, nome, v))
    ensures forall n :: n in Labels(Accumulate(acc, nome, v)) <==> n in Labels(acc) || n == nome
    ensures GroupTotal(Accumulate(acc, nome, v), nome) == GroupTotal(acc, nome) + v
    ensures forall n :: n != nome ==> GroupTotal(Accumulate(acc, nome, v), n) == GroupTotal(acc, n)
    ensures SumGroups(Accumulate(acc, nome, v)) == SumGroups(acc) + v
  {
    var r := Accumulate(acc, nome, v);
    if |acc| == 0 {
    } else if acc[0].nome == nome {
      assert r[1..] == acc[1..];
      AbsentTotal(acc[1..], nome);
      assert Labels(r) == Labels(acc);
      forall i, j | 0 <= i < j < |r| ensures r[i].nome != r[j].nome {
        assert r[j] == acc[j];
        if i > 0 { assert r[i] == acc[i]; }
      }
    } else {
      var rest := acc[1..];
      assert DistinctNames(rest) by {
        forall i, j | 0 <= i < j < |rest| ensures rest[i].nome != rest[j].nome {
          assert rest[i] == acc[i + 1] && rest[j] == acc[j + 1];
        }
      }
      AccumulateSpec(rest, nome, v);
      var r' := Accumulate(rest, nome, v);
      assert r == [acc[0]] + r' && r[1..] == r';
      assert acc[0].nome !in Labels(rest) by {
        forall k | 0 <= k < |rest| ensures Labels(rest)[k] != acc[0].nome {
          assert rest[k] == acc[k + 1];
        }
      }
      assert Labels(r) == [acc[0].nome] + Labels(r');
      assert Labels(acc) == [acc[0].nome] + Labels(rest);
      forall i, j | 0 <= i < j < |r| ensures r[i].nome != r[j].nome {
        if i == 0 {
          assert r[j].nome == Labels(r')[j - 1];
        } else {
          assert r[i] == r'[i - 1] && r[j] == r'[j - 1];
        }
      }
    }
  }

  /** A name that is not a property reads as `|| 0`. */
  lemma {:induction false} AbsentTotal(groups: seq<Group>, nome: string)
    requires nome !in Labels(groups)
    ensures GroupTotal(groups, nome) == 0
  {
    if |groups| > 0 {
      assert Labels(groups)[0] == groups[0].nome;
      assert forall k :: 0 <= k < |groups| - 1 ==> Labels(groups[1..])[k] == Labels(groups)[k + 1];
      AbsentTotal(groups[1..], nome);
    }
  }

  /** With distinct names, reading a property back gives its stored value. */
  lemma {:induction false} GroupTotalAt(groups: seq<Group>, i: int)
    requires DistinctNames(groups) && 0 <= i < |groups|
    ensures GroupTotal(groups, groups[i].nome) == groups[i].total
  {
    if i > 0 {
      var rest := groups[1..];
      assert groups[0].nome != groups[i].nome;
      assert DistinctNames(rest) by {
        forall a, b | 0 <= a < b < |rest| ensures rest[a].nome != rest[b].nome {
          assert rest[a] == groups[a + 1] && rest[b] == groups[b + 1];
        }
      }
      GroupTotalAt(rest, i - 1);
    }
  }

  /** The product a sale refers to, by `produtos.find(p => p.id === venda.produtoId)`. */
  function ProductOf(produtos: seq<Product>, venda: Sale): Option<Product>
  {
    FindProduct(produtos, venda.produtoId)
  }

  /** The `vendas.reduce(...)` building `vendasPorProduto`: a sale whose
      product resolves adds its value under that product's name; any other
      sale is skipped. */
  function RevenueByProduct(vendas: seq<Sale>, produtos: seq<Product>): seq<Group>
  {
    if |vendas| == 0 then []
    else
      var acc := RevenueByProduct(vendas[..|vendas| - 1], produtos);
      var venda := vendas[|vendas| - 1];
      match ProductOf(produtos, venda)
      case None => acc
      case Some(produto) => Accumulate(acc, produto.nome, venda.valorTotal)
  }

  /** Reference definition: the sales whose product resolves to a product
      named `nome` (whichever product id that is). */
  function ResolvesTo(produtos: seq<Product>, nome: string): Sale -> bool
  {
    (v: Sale) => match ProductOf(produtos, v) case Some(p) => p.nome == nome case None => false
  }

  /** The sales whose product resolves at all. */
  function Resolves(produtos: seq<Product>): Sale -> bool
  {
    (v: Sale) => ProductOf(produtos, v).Some?
  }

  /** Filter-and-sum revenue of one product name. */
  function RevenueOf(vendas: seq<Sale>, produtos: seq<Product>, nome: string): int
  {
    SumValor(Filter(vendas, ResolvesTo(produtos, nome)))
  }

  /** The grouping has one property per name of a resolved product and
      nothing else, and each property holds the filter-and-sum revenue of that
      name: products sharing a name share one group, and a sale whose product
      does not resolve contributes to none. */
  lemma {:induction false} RevenueByProductSpec(vendas: seq<Sale>, produtos: seq<Product>)
    ensures DistinctNames(RevenueByProduct(vendas, produtos))
    ensures forall nome :: nome in Labels(RevenueByProduct(vendas, produtos)) <==> Filter(vendas, ResolvesTo(produtos, nome)) != []
    ensures forall nome :: GroupTotal(RevenueByProduct(vendas, produtos), nome) == RevenueOf(vendas, produtos, nome)
  {
    if |vendas| > 0 {
      var n := |vendas| - 1;
      var init := vendas[..n];
      var venda := vendas[n];
      RevenueByProductSpec(init, produtos);
      var acc := RevenueByProduct(init, produtos);
      var r := RevenueByProduct(vendas, produtos);
      match ProductOf(produtos, venda) {
        case None =>
          assert r == acc;
        case Some(p) =>
          assert r == Accumulate(acc, p.nome, venda.valorTotal);
          AccumulateSpec(acc, p.nome, venda.valorTotal);
      }
      forall nome
        ensures nome in Labels(r) <==> Filter(vendas, ResolvesTo(produtos, nome)) != []
        ensures GroupTotal(r, nome) == RevenueOf(vendas, produtos, nome)
      {
        RevenueOfStep(vendas, produtos, nome);
      }
    }
  }

  /** The last sale of a list joins the filter-and-sum revenue of `nome`
      exactly when it resolves to a product of that name. */
  lemma RevenueOfStep(vendas: seq<Sale>, produtos: seq<Product>, nome: string)
    requires |vendas| > 0
    ensures var k := ResolvesTo(produtos, nome);
            var venda := vendas[|vendas| - 1];
            && (Filter(vendas, k) != [] <==> Filter(vendas[..|vendas| - 1], k) != [] || k(venda))
            && RevenueOf(vendas, produtos, nome)
               == RevenueOf(vendas[..|vendas| - 1], produtos, nome) + (if k(venda) then venda.valorTotal else 0)
  {
    var k := ResolvesTo(produtos, nome);
    var init := vendas[..|vendas| - 1];
    var venda := vendas[|vendas| - 1];
    var last: seq<Sale> := if k(venda) then [venda] else [];
    assert Filter(vendas, k) == Filter(init, k) + last;
    SumValorAppend(Filter(init, k), last);
    assert SumValor([venda]) == venda.valorTotal by { assert [venda][..0] == []; }
  }

  /** A sale whose product does not resolve leaves the grouping as it was. */
  lemma UnresolvedSaleSkipped(vendas: seq<Sale>, venda: Sale, produtos: seq<Product>)
    ensures (forall i :: 0 <= i < |produtos| ==> produtos[i].id != venda.produtoId) ==>
              RevenueByProduct(vendas + [venda], produtos) == RevenueByProduct(vendas, produtos)
  {
  }

  /** Every product name some sale resolves to has exactly one group, however
      many product ids carry that name, and the group holds the revenue of all
      of them. */
  lemma SharedNameOneGroup(vendas: seq<Sale>, produtos: seq<Product>, nome: string)
    requires Filter(vendas, ResolvesTo(produtos, nome)) != []
    ensures exists k :: 0 <= k < |RevenueByProduct(vendas, produtos)| &&
              RevenueByProduct(vendas, produtos)[k] == Group(nome, RevenueOf(vendas, produtos, nome)) &&
              forall k' :: 0 <= k' < |RevenueByProduct(vendas, produtos)| && RevenueByProduct(vendas, produtos)[k'].nome == nome ==> k' == k
  {
    var r := RevenueByProduct(vendas, produtos);
    RevenueByProductSpec(vendas, produtos);
    assert nome in Labels(r);
    var k :| 0 <= k < |r| && Labels(r)[k] == nome;
    GroupTotalAt(r, k);
    assert r[k] == Group(nome, RevenueOf(vendas, produtos, nome));
  }

  /** The chart's grand total is the value of the sales whose product
      resolves: the sales skipped by the grouping are exactly the dangling
      ones. */
  lemma {:induction false} RevenueByProductSum(vendas: seq<Sale>, produtos: seq<Product>)
    ensures SumGroups(RevenueByProduct(vendas, produtos)) == SumValor(Filter(vendas, Resolves(produtos)))
  {
    if |vendas| > 0 {
      var n := |vendas| - 1;
      var init := vendas[..n];
      var venda := vendas[n];
      RevenueByProductSum(init, produtos);
      RevenueByProductSpec(init, produtos);
      var k := Resolves(produtos);
      SumValorAppend(Filter(init, k), if k(venda) then [venda] else []);
      assert SumValor([venda]) == venda.valorTotal by { assert [venda][..0] == []; }
      match ProductOf(produtos, venda)
      case None =>
      case Some(p) =>
        AccumulateSpec(RevenueByProduct(init, produtos), p.nome, venda.valorTotal);
    }
  }

  /** With every status either 'Pago' or 'A pagar', the chart total is the
      received plus the receivable total of the sales whose product resolves. */
  lemma RevenueMatchesTotals(vendas: seq<Sale>, produtos: seq<Product>)
    requires forall i :: 0 <= i < |vendas| ==> vendas[i].status == Pago || vendas[i].status == APagar
    ensures SumGroups(RevenueByProduct(vendas, produtos))
         == TotalRecebido(Filter(vendas, Resolves(produtos))) + TotalAReceber(Filter(vendas, Resolves(produtos)))
  {
    RevenueByProductSum(vendas, produtos);
    var resolved := Filter(vendas, Resolves(produtos));
    FilterMembers(vendas, Resolves(produtos));
    assert forall i :: 0 <= i < |resolved| ==> resolved[i] in vendas;
    TotalsPartition(resolved);
  }

  /** What the dashboard shows. */
  datatype DashboardView = DashboardView(
    totalRecebido: int,
    totalAReceber: int,
    nVendas: nat,
    clientesAPagar: seq<Client>,
    chartLabels: seq<string>,
    chartData: seq<int>)

  /** `renderDashboard` without its DOM writes. Labels and data come from the
      same grouping, so they are aligned: each label appears once, the labels
      are exactly the names of the products the sales resolve to, and the
      value at each index is the revenue of the label at that index. */
  function RenderDashboard(vendas: seq<Sale>, produtos: seq<Product>, clientes: seq<Client>): (d: DashboardView)
    ensures d.totalRecebido == TotalRecebido(vendas) && d.totalAReceber == TotalAReceber(vendas)
    ensures d.nVendas == |vendas|
    ensures d.clientesAPagar == ClientesAPagar(clientes)
    ensures |d.chartLabels| == |d.chartData|
    ensures forall i, j :: 0 <= i < j < |d.chartLabels| ==> d.chartLabels[i] != d.chartLabels[j]
    ensures forall nome :: nome in d.chartLabels <==> Filter(vendas, ResolvesTo(produtos, nome)) != []
    ensures forall i :: 0 <= i < |d.chartLabels| ==> d.chartData[i] == RevenueOf(vendas, produtos, d.chartLabels[i])
  {
    var porProduto := RevenueByProduct(vendas, produtos);
    RevenueByProductSpec(vendas, produtos);
    assert forall i :: 0 <= i < |porProduto| ==> GroupTotal(porProduto, porProduto[i].nome) == porProduto[i].total by {
      forall i | 0 <= i < |porProduto| ensures GroupTotal(porProduto, porProduto[i].nome) == porProduto[i].total {
        GroupTotalAt(porProduto, i);
      }
    }
    DashboardView(
      TotalRecebido(vendas),
      TotalAReceber(vendas),
      |vendas|,
      ClientesAPagar(clientes),
      Labels(porProduto),
      Values(porProduto))
  }
}
