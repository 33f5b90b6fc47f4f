/** Resolving a sale's client and product ids to display names. The sales
    table and the report build an id -> name `Map` from a collection; the
    dashboard and the sale form search the product list with `find`. */
module Lookup {
  import opened Wrappers
  import opened Records

  const ClienteNaoEncontrado: string := "Cliente não encontrado"
  const ProdutoNaoEncontrado: string := "Produto não encontrado"
  const NaoDisponivel: string := "N/A"

  /** `clients.map(c => [c.id, c.nome])` */
  function ClientEntries(clients: seq<Client>): seq<(int, string)>
  {
    seq(|clients|, i requires 0 <= i < |clients| => (clients[i].id, clients[i].nome))
  }

  /** `products.map(p => [p.id, p.nome])` */
  function ProductEntries(products: seq<Product>): seq<(int, string)>
  {
    seq(|products|, i requires 0 <= i < |products| => (products[i].id, products[i].nome))
  }

  /** `new Map(entries)`: entries are set in order, so a later entry with the
      same id overwrites an earlier one. */
  function NameMap(entries: seq<(int, string)>): map<int, string>
  {
    if |entries| == 0 then map[]
    else
      var e := entries[|entries| - 1];
      NameMap(entries[..|entries| - 1])[e.0 := e.1]
  }

  /** Entry `i` is the last one carrying `id`. */
  ghost predicate LastWithId(entries: seq<(int, string)>, i: int, id: int)
  {
    0 <= i < |entries| && entries[i].0 == id &&
    forall j :: i < j < |entries| ==> entries[j].0 != id
  }

  /** The map holds exactly the ids that occur among the entries, each bound
      to the name of its last entry. */
  lemma {:induction false} NameMapSpec(entries: seq<(int, string)>, id: int)
    ensures id in NameMap(entries) <==> exists i :: 0 <= i < |entries| && entries[i].0 == id
    ensures forall i :: LastWithId(entries, i, id) ==> id in NameMap(entries) && NameMap(entries)[id] == entries[i].1
  {
    if |entries| > 0 {
      var n := |entries| - 1;
      var init := entries[..n];
      NameMapSpec(init, id);
      if entries[n].0 != id {
        assert (exists i :: 0 <= i < |entries| && entries[i].0 == id)
           ==> (exists i :: 0 <= i < n && init[i].0 == id);
        forall i | LastWithId(entries, i, id)
          ensures LastWithId(init, i, id)
        {
        }
      } else {
        forall i | LastWithId(entries, i, id)
          ensures i == n
        {
        }
      }
    }
  }

  /** `names.get(id) || placeholder`: a missing id and an empty name both
      fall back to the placeholder. */
  function Label(names: map<int, string>, id: int, placeholder: string): (r: string)
    ensures placeholder != "" ==> r != ""
    ensures r == placeholder || (id in names && r == names[id])
  {
    if id in names && names[id] != "" then names[id] else placeholder
  }

  /** Resolving an id through a map built from `entries`: the last entry with
      that id gives the name unless its name is empty; no entry, or an empty
      name, gives the placeholder. The result is never empty when the
      placeholder is not. */
  lemma LabelSpec(entries: seq<(int, string)>, id: int, placeholder: string)
    ensures (forall i :: 0 <= i < |entries| ==> entries[i].0 != id) ==>
              Label(NameMap(entries), id, placeholder) == placeholder
    ensures forall i :: LastWithId(entries, i, id) ==>
              Label(NameMap(entries), id, placeholder) == (if entries[i].1 != "" then entries[i].1 else placeholder)
    ensures placeholder != "" ==> Label(NameMap(entries), id, placeholder) != ""
  {
    NameMapSpec(entries, id);
  }

  /** Product `i` is the first one carrying `id`. */
  ghost predicate FirstWithId(products: seq<Product>, i: int, id: int)
  {
    0 <= i < |products| && products[i].id == id &&
    forall j :: 0 <= j < i ==> products[j].id != id
  }

  /** `products.find(p => p.id === id)`: the first product with that id. */
  function FindProduct(products: seq<Product>, id: int): (r: Option<Product>)
    ensures r.None? <==> forall i :: 0 <= i < |products| ==> products[i].id != id
    ensures r.Some? ==> exists i :: FirstWithId(products, i, id) && products[i] == r.value
  {
    if |products| == 0 then None
    else if products[0].id == id then Some(products[0])
    else
      var r := FindProduct(products[1..], id);
      assert forall i :: 1 <= i < |products| ==> products[i] == products[1..][i - 1];
      assert forall i :: FirstWithId(products[1..], i, id) ==> FirstWithId(products, i + 1, id);
      r
  }
}
