/** The "Edit Product" dialog and the cache update it applies after a successful update. */
module EditProductModal {
  import opened Products
  import opened MutationErrors
  import ProductsList
  import QueryCache

  /** `old.map(item => item.id === data.id ? data : item)` over the defaulted cache. */
  function ApplyUpdate(cache: Option<seq<Product>>, updated: Product): (r: seq<Product>)
    ensures Ids(r) == Ids(OrEmpty(cache))
    ensures forall p :: p in r ==> p == updated || p in OrEmpty(cache)
  {
    var xs := OrEmpty(cache);
    seq(|xs|, i requires 0 <= i < |xs| => if xs[i].id == updated.id then updated else xs[i])
  }

  /** Same length; every element with the updated id is replaced, every other one kept in place. */
  lemma UpdateReplaces(cache: Option<seq<Product>>, updated: Product)
    ensures var xs, r := OrEmpty(cache), ApplyUpdate(cache, updated);
      && |r| == |xs|
      && (forall i :: 0 <= i < |xs| && xs[i].id == updated.id ==> r[i] == updated)
      && (forall i :: 0 <= i < |xs| && xs[i].id != updated.id ==> r[i] == xs[i])
  {
  }

  /** With unique ids, the single element with the updated id is replaced and nothing else moves. */
  lemma UpdateAtPosition(cache: Option<seq<Product>>, updated: Product, k: nat)
    requires UniqueIds(OrEmpty(cache))
    requires k < |OrEmpty(cache)| && OrEmpty(cache)[k].id == updated.id
    ensures ApplyUpdate(cache, updated) == OrEmpty(cache)[k := updated]
  {
  }

  /** Updating an id that is not in the list changes nothing. */
  lemma UpdateAbsent(cache: Option<seq<Product>>, updated: Product)
    requires !HasId(OrEmpty(cache), updated.id)
    ensures ApplyUpdate(cache, updated) == OrEmpty(cache)
  {
  }

  /** Applying the same update twice is the same as applying it once. */
  lemma UpdateIdempotent(cache: Option<seq<Product>>, updated: Product)
    ensures ApplyUpdate(Some(ApplyUpdate(cache, updated)), updated) == ApplyUpdate(cache, updated)
  {
  }

  /** The ids stay where they were, so unique ids stay unique. */
  lemma UpdateKeepsIds(cache: Option<seq<Product>>, updated: Product)
    ensures Ids(ApplyUpdate(cache, updated)) == Ids(OrEmpty(cache))
    ensures UniqueIds(OrEmpty(cache)) ==> UniqueIds(ApplyUpdate(cache, updated))
  {
  }

  /** The request PUT /products/{id} with its body. */
  datatype UpdateRequest = UpdateRequest(id: int, body: FormValues)

  /** `mutationFn`: no target product means no request at all. */
  function RequestFor(target: Option<Product>, body: FormValues): (r: Option<UpdateRequest>)
    ensures r.None? <==> target.None?
    ensures r.Some? ==> r.value.id == target.value.id && r.value.body == body
  {
    match target
    case None => None
    case Some(p) => Some(UpdateRequest(p.id, body))
  }

  /** The form filled in from a product, the price converted with `Number`. */
  function FormFrom(p: Product): FormValues {
    FormValues(p.title, p.price, p.description, p.category, p.image)
  }

  /** The product the form describes, given the id and rating the form does not hold. */
  function ProductOf(id: int, f: FormValues, rating: Rating): Product {
    Product(id, f.title, f.price, f.description, f.category, f.image, rating)
  }

  /** The form holds every field of the product except its id and rating. */
  lemma FormRoundTrip(p: Product)
    ensures ProductOf(p.id, FormFrom(p), p.rating) == p
  {
  }

  /** Submitting an unchanged product back leaves a list with unique ids as it was. */
  lemma UpdateUnchanged(xs: seq<Product>, p: Product)
    requires UniqueIds(xs) && p in xs
    ensures ApplyUpdate(Some(xs), p) == xs
  {
  }

  class EditDialog {
    /** The screen whose dialog state this dialog reads and resets. */
    const view: ProductsList.ProductsView
    var errorMessage: Option<string>
    var form: FormValues

    constructor (view: ProductsList.ProductsView)
      ensures this.view == view && errorMessage == None && form == EMPTY_FORM
    {
      this.view := view;
      errorMessage := None;
      form := EMPTY_FORM;
    }

    /** The dialog renders only while the screen's dialog state says "edit". */
    predicate IsOpen()
      reads this, view
      ensures IsOpen() ==> view.dialog != ProductsList.CLOSED
    {
      view.dialog.open == "edit"
    }

    /** The effect that copies the target product into the form when there is one. */
    method SyncForm()
      modifies this
      ensures old(view.dialog.data).Some? ==> form == FormFrom(old(view.dialog.data).value)
      ensures old(view.dialog.data).None? ==> form == old(form)
      ensures errorMessage == old(errorMessage)
    {
      if view.dialog.data.Some? {
        form := FormFrom(view.dialog.data.value);
      }
    }

    /** Resets the form, clears the error and closes the screen's dialog. */
    method HandleClose()
      modifies this, view
      ensures view.dialog == ProductsList.CLOSED && errorMessage == None && form == EMPTY_FORM
      ensures view.search == old(view.search) && view.category == old(view.category)
      ensures !IsOpen()
    {
      form := EMPTY_FORM;
      errorMessage := None;
      view.SetDialog(ProductsList.CLOSED);
    }

    /** Submitting clears the error and produces the update request, if there is a target. */
    method OnSubmit(values: FormValues) returns (request: Option<UpdateRequest>)
      modifies this
      ensures request == RequestFor(view.dialog.data, values)
      ensures errorMessage == None && form == old(form)
    {
      errorMessage := None;
      request := RequestFor(view.dialog.data, values);
    }

    /** A failed update keeps the dialog open and shows the error text. */
    method OnError(e: MutationError)
      modifies this
      ensures errorMessage == Some(ErrorText(e)) && form == old(form)
    {
      errorMessage := Some(ErrorText(e));
    }

    /** A successful update replaces the product in the cache, then closes the dialog. */
    method OnSuccess(cache: QueryCache.ProductsQuery, updated: Product)
      modifies this, view, cache
      ensures cache.data == Some(ApplyUpdate(old(cache.data), updated))
      ensures view.dialog == ProductsList.CLOSED && errorMessage == None && form == EMPTY_FORM
      ensures view.search == old(view.search) && view.category == old(view.category)
      ensures !IsOpen()
    {
      cache.SetQueryData(prev => ApplyUpdate(prev, updated));
      HandleClose();
    }
  }
}
