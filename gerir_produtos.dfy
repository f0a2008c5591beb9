/** The product-management modal: adds a product (name and ticket) for the
    signed-in user, and deletes a product only when no daily-ledger row
    refers to it.  The products and ledger tables are one backend object
    with a log of the requests it received; each call's failure is a
    parameter. */
module GerirProdutos {
  import opened Common

  type UserId = string

  datatype Product = Product(id: int, userId: UserId, name: string, ticket: real)

  /** A `daily_metrics` row, reduced to what the guard reads. */
  datatype LedgerRow = LedgerRow(id: int, productId: int)

  datatype Request =
    | InsertProduct(product: Product)
    | SelectLedgerRow(productId: int)
    | DeleteProductRequest(productId: int)

  datatype Toast = FillNameAndTicket | Added | AddFailed | HasLedgerData | Deleted | DeleteFailed

  /** Some ledger row refers to the product. */
  predicate Referenced(ledger: seq<LedgerRow>, productId: int)
  {
    exists i :: 0 <= i < |ledger| && ledger[i].productId == productId
  }

  /** Every ledger row refers to an existing product. */
  predicate LedgerConsistent(products: seq<Product>, ledger: seq<LedgerRow>)
  {
    forall i :: 0 <= i < |ledger| ==> exists p :: p in products && p.id == ledger[i].productId
  }

  /** The key `delete().eq('id', productId)` matches on the products table. */
  function ProductId(p: Product): int
  {
    p.id
  }

  /** Deleting an unreferenced product keeps every ledger row pointing at an
      existing product. */
  lemma DeleteKeepsLedgerConsistent(products: seq<Product>, ledger: seq<LedgerRow>, productId: int)
    requires LedgerConsistent(products, ledger)
    requires !Referenced(ledger, productId)
    ensures LedgerConsistent(WithoutId(products, ProductId, productId), ledger)
  {
    forall i | 0 <= i < |ledger|
      ensures exists p :: p in WithoutId(products, ProductId, productId) && p.id == ledger[i].productId
    {
      var p :| p in products && p.id == ledger[i].productId;
      assert ledger[i].productId != productId;
      assert p in WithoutId(products, ProductId, productId);
    }
  }

  /** Deleting a referenced product would leave a dangling ledger row: the
      guard is needed. */
  lemma DeleteReferencedBreaksLedger(products: seq<Product>, ledger: seq<LedgerRow>, productId: int)
    requires Referenced(ledger, productId)
    ensures !LedgerConsistent(WithoutId(products, ProductId, productId), ledger)
  {
    var i :| 0 <= i < |ledger| && ledger[i].productId == productId;
    assert forall p :: p in WithoutId(products, ProductId, productId) ==> p.id != ledger[i].productId;
  }

  /** The `products` and `daily_metrics` tables. */
  class Backend {
    var products: seq<Product>
    var ledger: seq<LedgerRow>
    var log: seq<Request>

    constructor (products: seq<Product>, ledger: seq<LedgerRow>)
      ensures this.products == products && this.ledger == ledger && log == []
    {
      this.products := products;
      this.ledger := ledger;
      log := [];
    }

    method Insert(p: Product, fails: bool)
      modifies this`products, this`log
      ensures log == old(log) + [InsertProduct(p)]
      ensures products == if fails then old(products) else old(products) + [p]
    {
      log := log + [InsertProduct(p)];
      if !fails {
        products := products + [p];
      }
    }

    /** `select('id').eq('product_id', productId).limit(1)`: whether a row
        exists, or `None` on error. */
    method AnyLedgerRow(productId: int, fails: bool) returns (found: Option<bool>)
      modifies this`log
      ensures log == old(log) + [SelectLedgerRow(productId)]
      ensures found == if fails then None else Some(Referenced(ledger, productId))
    {
      log := log + [SelectLedgerRow(productId)];
      if fails {
        found := None;
      } else {
        found := Some(Referenced(ledger, productId));
      }
    }

    method Delete(productId: int, fails: bool)
      modifies this`products, this`log
      ensures log == old(log) + [DeleteProductRequest(productId)]
      ensures products == if fails then old(products) else WithoutId(old(products), ProductId, productId)
    {
      log := log + [DeleteProductRequest(productId)];
      if !fails {
        products := WithoutId(products, ProductId, productId);
      }
    }
  }

  class Modal {
    const user: Option<UserId>

    var newProductName: string
    var newProductTicket: string
    var isSaving: bool
    var productToDelete: Option<int>
    var toasts: seq<Toast>
    /** Calls of `onProductsUpdate`, which makes the parent refetch. */
    var refreshes: nat

    constructor (user: Option<UserId>)
      ensures this.user == user
      ensures newProductName == "" && newProductTicket == "" && !isSaving && productToDelete == None
      ensures toasts == [] && refreshes == 0
    {
      this.user := user;
      newProductName := "";
      newProductTicket := "";
      isSaving := false;
      productToDelete := None;
      toasts := [];
      refreshes := 0;
    }

    method EditInputs(name: string, ticket: string)
      modifies this`newProductName, this`newProductTicket
      ensures newProductName == name && newProductTicket == ticket
    {
      newProductName := name;
      newProductTicket := ticket;
    }

    /** `handleAddProduct` up to its `await`: a blank name or an empty
        ticket is refused with a notice and no request; otherwise saving
        starts. */
    method BeginAdd() returns (accepted: bool)
      modifies this`isSaving, this`toasts
      ensures accepted == (!IsBlank(newProductName) && newProductTicket != "")
      ensures !accepted ==> isSaving == old(isSaving) && toasts == old(toasts) + [FillNameAndTicket]
      ensures accepted ==> isSaving && toasts == old(toasts)
    {
      TrimEmptyIffBlank(newProductName);
      if Trim(newProductName) == [] || newProductTicket == "" {
        toasts := toasts + [FillNameAndTicket];
        accepted := false;
        return;
      }
      isSaving := true;
      accepted := true;
    }

    /** The insert (with the ticket as parsed by `parseFloat` and the id
        the table assigns): on success the inputs are cleared and the
        parent refreshes; without a signed-in user the insert is never
        built and the add fails.  Saving ends on every path. */
    method CompleteAdd(backend: Backend, parsedTicket: real, newId: int, fails: bool)
      modifies this`newProductName, this`newProductTicket, this`isSaving, this`toasts, this`refreshes
      modifies backend`products, backend`log
      ensures !isSaving
      ensures user.None? ==>
                backend.products == old(backend.products) && backend.log == old(backend.log)
                && toasts == old(toasts) + [AddFailed] && refreshes == old(refreshes)
                && newProductName == old(newProductName) && newProductTicket == old(newProductTicket)
      ensures user.Some? ==>
                var p := Product(newId, user.value, old(newProductName), parsedTicket);
                backend.log == old(backend.log) + [InsertProduct(p)]
                && backend.products == (if fails then old(backend.products) else old(backend.products) + [p])
      ensures user.Some? && !fails ==>
                newProductName == "" && newProductTicket == "" && toasts == old(toasts) + [Added]
                && refreshes == old(refreshes) + 1
      ensures user.Some? && fails ==>
                newProductName == old(newProductName) && newProductTicket == old(newProductTicket)
                && toasts == old(toasts) + [AddFailed] && refreshes == old(refreshes)
    {
      if user.None? {
        toasts := toasts + [AddFailed];
      } else {
        backend.Insert(Product(newId, user.value, newProductName, parsedTicket), fails);
        if fails {
          toasts := toasts + [AddFailed];
        } else {
          toasts := toasts + [Added];
          newProductName := "";
          newProductTicket := "";
          refreshes := refreshes + 1;
        }
      }
      isSaving := false;
    }

    /** The trash button asks for confirmation of this product. */
    method SelectForDeletion(productId: int)
      modifies this`productToDelete
      ensures productToDelete == Some(productId)
    {
      productToDelete := Some(productId);
    }

    method CancelDeletion()
      modifies this`productToDelete
      ensures productToDelete == None
    {
      productToDelete := None;
    }

    /** `handleDeleteProduct`: the product is deleted only when the ledger
        query succeeds and finds no row for it; a referenced product stays.
        The confirmation is cleared on every outcome. */
    method DeleteProduct(backend: Backend, productId: int, queryFails: bool, deleteFails: bool)
      modifies this`productToDelete, this`toasts, this`refreshes, backend`products, backend`log
      ensures productToDelete == None
      ensures backend.ledger == old(backend.ledger)
      ensures var referenced := Referenced(backend.ledger, productId);
              var deleteSent := !queryFails && !referenced;
              backend.log == old(backend.log) + [SelectLedgerRow(productId)]
                             + (if deleteSent then [DeleteProductRequest(productId)] else [])
              && backend.products == (if deleteSent && !deleteFails
                                      then WithoutId(old(backend.products), ProductId, productId)
                                      else old(backend.products))
              && toasts == old(toasts) + [if queryFails then DeleteFailed
                                          else if referenced then HasLedgerData
                                          else if deleteFails then DeleteFailed
                                          else Deleted]
              && refreshes == old(refreshes) + (if deleteSent && !deleteFails then 1 else 0)
      ensures LedgerConsistent(old(backend.products), backend.ledger) ==>
                LedgerConsistent(backend.products, backend.ledger)
    {
      var found := backend.AnyLedgerRow(productId, queryFails);
      if found.None? {
        toasts := toasts + [DeleteFailed];
      } else if found.value {
        toasts := toasts + [HasLedgerData];
      } else {
        backend.Delete(productId, deleteFails);
        if deleteFails {
          toasts := toasts + [DeleteFailed];
        } else {
          if LedgerConsistent(old(backend.products), backend.ledger) {
            DeleteKeepsLedgerConsistent(old(backend.products), backend.ledger, productId);
          }
          toasts := toasts + [Deleted];
          refreshes := refreshes + 1;
        }
      }
      productToDelete := None;
    }
  }
}
