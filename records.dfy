/** The three collections the application reads: clients ("clientes"),
    products ("produtos") and sales ("vendas"). Money is in integer cents. */
module Records {
  import opened Wrappers

  /** The two status values the forms offer. Status is kept as the stored
      string, so a record may carry any other value too. */
  const Pago: string := "Pago"
  const APagar: string := "A pagar"

  datatype Client = Client(id: int, nome: string, email: string, telefone: string, status: string)

  /** `preco` is the unit price in cents. */
  datatype Product = Product(id: int, nome: string, preco: int)

  /** `id` is absent until the store assigns one; `data` (the sale date, as a
      timestamp) is absent when the record never received one. */
  datatype Sale = Sale(
    id: Option<int>,
    clienteId: int,
    produtoId: int,
    quantidade: int,
    valorTotal: int,
    formaPagamento: string,
    status: string,
    data: Option<int>)
}
