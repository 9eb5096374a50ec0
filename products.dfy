/**
 * The product service: the stock ledger over the product repository, soft
 * deletion, the per-category uniqueness check on product names and the
 * low-stock alert for an invoice.
 */
module Products {
  import opened Errors
  import opened Text

  datatype Category = Category(id: int, description: string, companyId: int)

  /** A product as stored (and as submitted by a form: a form may leave the category out). */
  datatype Product = Product(id: int, name: string, category: Option<Category>,
                             quantityInStock: int, lowLimitAlert: int, isDeleted: bool)

  /** An invoice line, carrying the product as it was loaded with the line. */
  datatype InvoiceLine = InvoiceLine(id: int, invoiceId: int, product: Product, quantity: int)

  /** Spring's FieldError: the form object, the field and the message. */
  datatype FieldError = FieldError(objectName: string, field: string, message: string)

  function NameInUse(name: string): FieldError {
    FieldError("newProduct", "name", "Product name \"" + name + "\" is already in use for this company.")
  }

  // ------------------------------------------------ repository queries

  /** ProductRepository.existsByNameAndCategory_IdAndCategory_Company_Id. */
  predicate ExistsByNameAndCategory(store: map<int, Product>, name: string, categoryId: int, companyId: int) {
    exists id | id in store ::
      && store[id].name == name
      && store[id].category.Some?
      && store[id].category.value.id == categoryId
      && store[id].category.value.companyId == companyId
  }

  /** InvoiceProductService.doesProductHasInvoice: some invoice line is for the product. */
  predicate HasInvoice(lines: seq<InvoiceLine>, productId: int) {
    exists i | 0 <= i < |lines| :: lines[i].product.id == productId
  }

  /** InvoiceProductRepository.findByInvoiceId: the lines of one invoice, in stored order. */
  function LinesOfInvoice(lines: seq<InvoiceLine>, invoiceId: int): (r: seq<InvoiceLine>)
    ensures forall l :: l in r <==> l in lines && l.invoiceId == invoiceId
  {
    if lines == [] then []
    else LinesOfInvoice(lines[..|lines| - 1], invoiceId)
         + (if lines[|lines| - 1].invoiceId == invoiceId then [lines[|lines| - 1]] else [])
  }

  // ----------------------------------------------- stock specification

  predicate StockNonNegative(store: map<int, Product>) {
    forall id | id in store :: store[id].quantityInStock >= 0
  }

  /** `after` is `before` with product id's stock set to `quantity`, and nothing else changed. */
  predicate OnlyStockChanged(before: map<int, Product>, after: map<int, Product>, id: int, quantity: int) {
    && id in before
    && after.Keys == before.Keys
    && after[id] == before[id].(quantityInStock := quantity)
    && forall k | k in before && k != id :: after[k] == before[k]
  }

  /** decreaseProductQuantityInStock on the repository contents. */
  function DecreasedStock(store: map<int, Product>, id: int, quantity: int): (r: Result<map<int, Product>>)
    ensures id !in store ==> r == Err(ProductNotFound(id))
    ensures id in store && store[id].quantityInStock < quantity ==> r == Err(NegativeQuantity)
    ensures id in store && quantity <= store[id].quantityInStock ==> r.Ok?
    ensures r.Ok? ==> OnlyStockChanged(store, r.value, id, store[id].quantityInStock - quantity)
    ensures r.Ok? && StockNonNegative(store) ==> StockNonNegative(r.value)
  {
    if id !in store then Err(ProductNotFound(id))
    else
      var newQuantity := store[id].quantityInStock - quantity;
      if newQuantity < 0 then Err(NegativeQuantity)
      else Ok(store[id := store[id].(quantityInStock := newQuantity)])
  }

  /** increaseProductQuantityInStock on the repository contents: no upper bound. */
  function IncreasedStock(store: map<int, Product>, id: int, quantity: int): (r: Result<map<int, Product>>)
    ensures id !in store <==> r == Err(ProductNotFound(id))
    ensures id in store ==> r.Ok?
    ensures r.Ok? ==> OnlyStockChanged(store, r.value, id, store[id].quantityInStock + quantity)
    ensures r.Ok? && StockNonNegative(store) && quantity >= 0 ==> StockNonNegative(r.value)
  {
    if id !in store then Err(ProductNotFound(id))
    else Ok(store[id := store[id].(quantityInStock := store[id].quantityInStock + quantity)])
  }

  /** Increasing and then decreasing the stock of a product by the same quantity restores the store. */
  lemma IncreaseThenDecrease(store: map<int, Product>, id: int, quantity: int)
    requires id in store && store[id].quantityInStock >= 0
    ensures IncreasedStock(store, id, quantity).Ok?
    ensures DecreasedStock(IncreasedStock(store, id, quantity).value, id, quantity) == Ok(store)
  {
    var up := IncreasedStock(store, id, quantity).value;
    var down := DecreasedStock(up, id, quantity).value;
    assert down[id] == store[id];
    assert down == store;
  }

  /** A successful decrease is undone by increasing by the same quantity. */
  lemma DecreaseThenIncrease(store: map<int, Product>, id: int, quantity: int)
    requires DecreasedStock(store, id, quantity).Ok?
    ensures IncreasedStock(DecreasedStock(store, id, quantity).value, id, quantity) == Ok(store)
  {
    var down := DecreasedStock(store, id, quantity).value;
    var up := IncreasedStock(down, id, quantity).value;
    assert up[id] == store[id];
    assert up == store;
  }

  /** update on the repository contents: the submitted product replaces the stored one, keeping its stock. */
  function Updated(store: map<int, Product>, newProduct: Product): (r: map<int, Product>)
    ensures newProduct.id !in store ==> r == store
    ensures newProduct.id in store ==>
              && r.Keys == store.Keys
              && r[newProduct.id].quantityInStock == store[newProduct.id].quantityInStock
              && r[newProduct.id] == newProduct.(quantityInStock := r[newProduct.id].quantityInStock)
              && forall k | k in store && k != newProduct.id :: r[k] == store[k]
  {
    if newProduct.id in store
    then store[newProduct.id := newProduct.(quantityInStock := store[newProduct.id].quantityInStock)]
    else store
  }

  /** delete on the repository contents: a soft delete, only of a product out of stock and on no invoice. */
  function SoftDeleted(store: map<int, Product>, productId: int, lines: seq<InvoiceLine>): (r: map<int, Product>)
    ensures r.Keys == store.Keys
    ensures forall k | k in store && k != productId :: r[k] == store[k]
    ensures productId in store ==> r[productId] == store[productId].(isDeleted := r[productId].isDeleted)
    ensures productId in store ==>
              (r[productId].isDeleted <==>
                 store[productId].isDeleted
                 || (store[productId].quantityInStock == 0 && !HasInvoice(lines, productId)))
    ensures r != store ==> productId in store && store[productId].quantityInStock == 0 && !HasInvoice(lines, productId)
  {
    if productId in store && store[productId].quantityInStock == 0 && !HasInvoice(lines, productId)
    then store[productId := store[productId].(isDeleted := true)]
    else store
  }

  // ------------------------------------------- validation specification

  /** The errors addProductNameValidation adds: one on "name" iff the name is taken in the chosen category. */
  function NameErrorsOnCreate(store: map<int, Product>, form: Product, companyId: int): (errs: seq<FieldError>)
    ensures |errs| <= 1
    ensures errs != [] <==>
              form.category.Some? && ExistsByNameAndCategory(store, form.name, form.category.value.id, companyId)
    ensures errs != [] ==> errs[0] == NameInUse(form.name) && errs[0].field == "name"
  {
    if form.category.Some? && ExistsByNameAndCategory(store, form.name, form.category.value.id, companyId)
    then [NameInUse(form.name)]
    else []
  }

  /** Whether an edit renames the product or moves it to a category with another description. */
  predicate RenamedOrRecategorised(stored: Product, form: Product)
    requires stored.category.Some? && form.category.Some?
  {
    form.category.value.description != stored.category.value.description || form.name != stored.name
  }

  /**
   * The errors addUpdateProductNameValidation adds: the create check, run only
   * when the name or the category description changed. The stored product
   * must exist, and must have a category when the form has one.
   */
  function NameErrorsOnUpdate(store: map<int, Product>, form: Product, companyId: int): (r: Result<seq<FieldError>>)
    ensures form.id !in store ==> r == Err(NoSuchElement)
    ensures form.id in store && form.category.Some? && store[form.id].category.None? ==> r == Err(NullReference)
    ensures r.Err? <==> form.id !in store || (form.category.Some? && store[form.id].category.None?)
    ensures r.Ok? && form.category.None? ==> r.value == []
    ensures r.Ok? && form.category.Some? ==>
              r.value == if RenamedOrRecategorised(store[form.id], form)
                         then NameErrorsOnCreate(store, form, companyId) else []
  {
    if form.id !in store then Err(NoSuchElement)
    else
      var oldProduct := store[form.id];
      if form.category.None? then Ok([])
      else if oldProduct.category.None? then Err(NullReference)
      else if RenamedOrRecategorised(oldProduct, form) then Ok(NameErrorsOnCreate(store, form, companyId))
      else Ok([])
  }

  /**
   * Resubmitting a product unchanged passes the update check, although the
   * create check would reject it: the stored product itself has that name.
   */
  lemma UnchangedEditIsAccepted(store: map<int, Product>, form: Product, companyId: int)
    requires form.id in store && store[form.id].name == form.name
    requires store[form.id].category == form.category && form.category.Some?
    requires form.category.value.companyId == companyId
    ensures NameErrorsOnUpdate(store, form, companyId) == Ok([])
    ensures NameErrorsOnCreate(store, form, companyId) == [NameInUse(form.name)]
  {
    assert ExistsByNameAndCategory(store, form.name, form.category.value.id, companyId) by {
      var id := form.id;
      assert id in store && store[id].name == form.name;
    }
  }

  // ------------------------------------------------ low-limit alert

  predicate BelowLowLimit(p: Product) {
    p.quantityInStock < p.lowLimitAlert
  }

  /** The names of the lines' products whose stock is below their low limit, in line order. */
  function BelowLowLimitNames(lines: seq<InvoiceLine>): (names: seq<string>)
    ensures |names| <= |lines|
    ensures names == [] <==> forall i | 0 <= i < |lines| :: !BelowLowLimit(lines[i].product)
    ensures forall n | n in names :: exists i | 0 <= i < |lines| :: BelowLowLimit(lines[i].product) && lines[i].product.name == n
    ensures forall i | 0 <= i < |lines| && BelowLowLimit(lines[i].product) :: lines[i].product.name in names
  {
    if lines == [] then []
    else
      var last := lines[|lines| - 1];
      var front := lines[..|lines| - 1];
      assert forall i | 0 <= i < |front| :: front[i] == lines[i];
      BelowLowLimitNames(front) + (if BelowLowLimit(last.product) then [last.product.name] else [])
  }

  /** The names of two runs of lines are those of the first run followed by those of the second. */
  lemma {:induction false} BelowLowLimitNamesAppend(a: seq<InvoiceLine>, b: seq<InvoiceLine>)
    ensures BelowLowLimitNames(a + b) == BelowLowLimitNames(a) + BelowLowLimitNames(b)
    decreases |b|
  {
    if b != [] {
      var front := b[..|b| - 1];
      assert (a + b)[..|a + b| - 1] == a + front;
      assert (a + b)[|a + b| - 1] == b[|b| - 1];
      BelowLowLimitNamesAppend(a, front);
    } else {
      assert a + b == a;
    }
  }

  /** One line contributes its product's name exactly when that product is below its low limit. */
  lemma BelowLowLimitNamesOne(line: InvoiceLine)
    ensures BelowLowLimitNames([line]) == if BelowLowLimit(line.product) then [line.product.name] else []
  {
    assert [line][..0] == [];
  }

  function LowLimitMessage(names: seq<string>): string {
    "Stock of " + Join(names, ", ") + " decreased below low limit!"
  }

  // ------------------------------------------------------ the objects

  /** Spring's BindingResult, reduced to the list of field errors it collects. */
  class BindingResult {
    var errors: seq<FieldError>

    constructor ()
      ensures errors == []
    {
      errors := [];
    }

    method AddError(error: FieldError)
      modifies this
      ensures errors == old(errors) + [error]
    {
      errors := errors + [error];
    }
  }

  /** ProductServiceImpl over the contents of the product repository. */
  class ProductService {
    /** The product repository: products by id. */
    var products: map<int, Product>

    /** The repository stores each product under its own id. */
    ghost predicate Valid()
      reads this
    {
      forall id | id in products :: products[id].id == id
    }

    constructor (initial: map<int, Product>)
      requires forall id | id in initial :: initial[id].id == id
      ensures Valid() && products == initial
    {
      products := initial;
    }

    /** findById: the stored product, or ProductNotFoundException. */
    function FindById(id: int): (r: Result<Product>)
      reads this
      requires Valid()
      ensures r.Ok? <==> id in products
      ensures r.Ok? ==> r.value == products[id] && r.value.id == id
      ensures r.Err? ==> r.error == ProductNotFound(id)
    {
      if id in products then Ok(products[id]) else Err(ProductNotFound(id))
    }

    method Update(newProduct: Product)
      requires Valid()
      modifies this
      ensures Valid()
      ensures products == Updated(old(products), newProduct)
    {
      if newProduct.id in products {
        var oldProduct := products[newProduct.id];
        var saved := newProduct.(quantityInStock := oldProduct.quantityInStock);
        products := products[saved.id := saved];
      }
    }

    method Delete(productId: int, lines: seq<InvoiceLine>)
      requires Valid()
      modifies this
      ensures Valid()
      ensures products == SoftDeleted(old(products), productId, lines)
    {
      if productId in products {
        var productToBeDeleted := products[productId];
        if productToBeDeleted.quantityInStock == 0 && !HasInvoice(lines, productId) {
          productToBeDeleted := productToBeDeleted.(isDeleted := true);
          products := products[productToBeDeleted.id := productToBeDeleted];
        }
      }
    }

    method DecreaseProductQuantityInStock(id: int, quantity: int) returns (outcome: Outcome)
      requires Valid()
      modifies this
      ensures Valid()
      ensures match DecreasedStock(old(products), id, quantity)
                case Ok(after) => outcome == Pass && products == after
                case Err(e) => outcome == Fail(e) && products == old(products)
    {
      if id !in products {
        return Fail(ProductNotFound(id));
      }
      var product := products[id];
      var newQuantity := product.quantityInStock - quantity;
      if newQuantity < 0 {
        return Fail(NegativeQuantity);
      }
      product := product.(quantityInStock := newQuantity);
      products := products[product.id := product];
      outcome := Pass;
    }

    method IncreaseProductQuantityInStock(id: int, quantity: int) returns (outcome: Outcome)
      requires Valid()
      modifies this
      ensures Valid()
      ensures match IncreasedStock(old(products), id, quantity)
                case Ok(after) => outcome == Pass && products == after
                case Err(e) => outcome == Fail(e) && products == old(products)
    {
      if id !in products {
        return Fail(ProductNotFound(id));
      }
      var product := products[id];
      var newQuantity := product.quantityInStock + quantity;
      product := product.(quantityInStock := newQuantity);
      products := products[product.id := product];
      outcome := Pass;
    }

    method AddProductNameValidation(productForm: Product, bindingResult: BindingResult, companyId: int)
      modifies bindingResult
      ensures bindingResult.errors == old(bindingResult.errors) + NameErrorsOnCreate(products, productForm, companyId)
    {
      if productForm.category.Some? {
        var categoryId := productForm.category.value.id;
        if ExistsByNameAndCategory(products, productForm.name, categoryId, companyId) {
          bindingResult.AddError(NameInUse(productForm.name));
        }
      }
    }

    method AddUpdateProductNameValidation(product: Product, bindingResult: BindingResult, companyId: int)
      returns (outcome: Outcome)
      modifies bindingResult
      ensures match NameErrorsOnUpdate(products, product, companyId)
                case Ok(errs) => outcome == Pass && bindingResult.errors == old(bindingResult.errors) + errs
                case Err(e) => outcome == Fail(e) && bindingResult.errors == old(bindingResult.errors)
    {
      if product.id !in products {
        return Fail(NoSuchElement);
      }
      var oldProduct := products[product.id];
      if product.category.Some? {
        if oldProduct.category.None? {
          return Fail(NullReference);
        }
        if product.category.value.description != oldProduct.category.value.description
           || product.name != oldProduct.name {
          var categoryId := product.category.value.id;
          if ExistsByNameAndCategory(products, product.name, categoryId, companyId) {
            bindingResult.AddError(NameInUse(product.name));
          }
        }
      }
      outcome := Pass;
    }

    /**
     * checkProductLowLimitAlert: throws, naming every product of the
     * invoice's lines whose stock is below its low limit, when there is one.
     */
    method CheckProductLowLimitAlert(invoiceId: int, lines: seq<InvoiceLine>) returns (outcome: Outcome)
      ensures outcome.Pass? <==>
                forall l | l in lines && l.invoiceId == invoiceId :: !BelowLowLimit(l.product)
      ensures outcome.Fail? ==>
                outcome.error == LowLimitAlert(LowLimitMessage(BelowLowLimitNames(LinesOfInvoice(lines, invoiceId))))
    {
      var invoiceProducts := LinesOfInvoice(lines, invoiceId);
      var belowLowLimitProductNames: seq<string> := [];
      for i := 0 to |invoiceProducts|
        invariant belowLowLimitProductNames == BelowLowLimitNames(invoiceProducts[..i])
      {
        var quantityInStock := invoiceProducts[i].product.quantityInStock;
        var lowLimitAlert := invoiceProducts[i].product.lowLimitAlert;
        assert invoiceProducts[..i + 1][..i] == invoiceProducts[..i];
        if quantityInStock < lowLimitAlert {
          belowLowLimitProductNames := belowLowLimitProductNames + [invoiceProducts[i].product.name];
        }
      }
      assert invoiceProducts[..|invoiceProducts|] == invoiceProducts;
      var productNames := Join(belowLowLimitProductNames, ", ");
      if belowLowLimitProductNames != [] {
        return Fail(LowLimitAlert("Stock of " + productNames + " decreased below low limit!"));
      }
      outcome := Pass;
    }
  }
}
