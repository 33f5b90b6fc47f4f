/** The sale form of `setupSaleForm`: the live total preview and the record
    the save button hands to the store. */
module SaleForm {
  import opened Wrappers
  import opened Records
  import opened Lookup

  /** The form fields, already parsed: `idField` is None when the hidden id
      field is empty. */
  datatype SaleInput = SaleInput(
    idField: Option<int>,
    clienteId: int,
    produtoId: int,
    quantidade: int,
    formaPagamento: string,
    status: string)

  /** Why nothing reached the store: the browser's form validation refused
      the input, or the selected product is not in the list (reading `preco`
      of `undefined` throws). */
  datatype SaveError = InvalidForm | ProductNotFound

  /** The save button's handler up to `db.save`. `formValid` is the outcome of
      `form.checkValidity()` and `getById` is the store's lookup of a stored
      sale. `Ok(sale)` is the record passed to `db.save`; an error means the
      save is never reached. The total is the first matching product's price
      times the quantity, the id is the id field's, and the date is carried
      over from the stored sale when one is found, and absent otherwise. */
  method SubmitSale(formValid: bool, input: SaleInput, products: seq<Product>, getById: int -> Option<Sale>)
    returns (r: Result<Sale, SaveError>)
    ensures !formValid ==> r == Err(InvalidForm)
    ensures formValid ==> (r.Err? <==> forall i :: 0 <= i < |products| ==> products[i].id != input.produtoId)
    ensures r.Err? ==> r.error == (if formValid then ProductNotFound else InvalidForm)
    ensures r.Ok? ==> forall i :: FirstWithId(products, i, input.produtoId) ==>
                        r.value.valorTotal == products[i].preco * input.quantidade
    ensures r.Ok? ==> && r.value.id == input.idField
                      && r.value.clienteId == input.clienteId
                      && r.value.produtoId == input.produtoId
                      && r.value.quantidade == input.quantidade
                      && r.value.formaPagamento == input.formaPagamento
                      && r.value.status == input.status
    ensures r.Ok? && input.idField.Some? && getById(input.idField.value).Some? ==>
              r.value.data == getById(input.idField.value).value.data
    ensures r.Ok? && (input.idField.None? || getById(input.idField.value).None?) ==> r.value.data == None
  {
    if !formValid {
      return Err(InvalidForm);
    }
    var product := FindProduct(products, input.produtoId);
    if product.None? {
      return Err(ProductNotFound);
    }
    var totalValue := product.value.preco * input.quantidade;
    var saleData := Sale(input.idField, input.clienteId, input.produtoId, input.quantidade, totalValue,
                         input.formaPagamento, input.status, None);
    var existingSale := if input.idField.Some? then getById(input.idField.value) else None;
    if existingSale.Some? {
      saleData := saleData.(data := existingSale.value.data);
    }
    return Ok(saleData);
  }

  /** The total preview of the open form. `total` is the amount shown in the
      total field, in cents; `products` is the list read when the form was set
      up. */
  class SaleFormView {
    const products: seq<Product>
    var total: int

    constructor (products: seq<Product>, total: int)
      ensures this.products == products && this.total == total
    {
      this.products := products;
      this.total := total;
    }

    /** `calculateTotal`: with a product selected and a positive quantity the
        preview shows that product's price times the quantity, or keeps what
        it showed when the product is not in the list; otherwise it shows
        zero. `selected` is None when the select's value is empty; the
        disabled placeholder option reports its text, which is a selection
        that matches no product. */
    method CalculateTotal(selected: Option<int>, quantity: int)
      modifies this
      ensures selected.Some? && quantity > 0 ==>
                forall i :: FirstWithId(products, i, selected.value) ==> total == products[i].preco * quantity
      ensures selected.Some? && quantity > 0 && (forall i :: 0 <= i < |products| ==> products[i].id != selected.value) ==>
                total == old(total)
      ensures selected.None? || quantity <= 0 ==> total == 0
    {
      if selected.Some? && quantity > 0 {
        var product := FindProduct(products, selected.value);
        if product.Some? {
          total := product.value.preco * quantity;
        }
      } else {
        total := 0;
      }
    }
  }
}
