/** The "Add Product" dialog and the cache update it applies after a successful create. */
module AddProductModal {
  import opened Products
  import opened MutationErrors
  import QueryCache

  /** `(old = []) => [data, ...old]`: the created product goes first. */
  function ApplyCreate(cache: Option<seq<Product>>, created: Product): (r: seq<Product>)
    ensures Ids(r) == [created.id] + Ids(OrEmpty(cache))
    ensures multiset(r) == multiset(OrEmpty(cache)) + multiset{created}
  {
    [created] + OrEmpty(cache)
  }

  /** One element more, the created one at the front, the old list shifted by one. */
  lemma CreatePrepends(cache: Option<seq<Product>>, created: Product)
    ensures var r := ApplyCreate(cache, created);
      && |r| == |OrEmpty(cache)| + 1
      && r[0] == created
      && forall i :: 0 <= i < |OrEmpty(cache)| ==> r[i + 1] == OrEmpty(cache)[i]
  {
  }

  /** A missing cache entry is treated as empty. */
  lemma CreateOnMissingCache(created: Product)
    ensures ApplyCreate(None, created) == [created]
  {
  }

  /** No deduplication: an old element with the same id stays beside the new one. */
  lemma CreateKeepsSameId(cache: Option<seq<Product>>, created: Product)
    requires HasId(OrEmpty(cache), created.id)
    ensures CountId(ApplyCreate(cache, created), created.id) >= 2
  {
  }

  /** On a list with unique ids, the result has unique ids exactly when the new id is fresh. */
  lemma CreateUniqueIds(cache: Option<seq<Product>>, created: Product)
    requires UniqueIds(OrEmpty(cache))
    ensures UniqueIds(ApplyCreate(cache, created)) <==> !HasId(OrEmpty(cache), created.id)
  {
    var xs, r := OrEmpty(cache), ApplyCreate(cache, created);
    if HasId(xs, created.id) {
      var k :| 0 <= k < |xs| && xs[k].id == created.id;
      assert r[0] == created && r[k + 1] == xs[k];
      assert 0 < k + 1 < |r| && r[0].id == r[k + 1].id;
    } else {
      forall i, j | 0 <= i < j < |r| ensures r[i].id != r[j].id {
        assert r[j] == xs[j - 1];
        if i > 0 {
          assert r[i] == xs[i - 1];
        }
      }
    }
  }

  class AddDialog {
    var open: bool
    var errorMessage: Option<string>
    var form: FormValues

    constructor ()
      ensures !open && errorMessage == None && form == EMPTY_FORM
    {
      open := false;
      errorMessage := None;
      form := EMPTY_FORM;
    }

    /** The "Add Product" button. */
    method Open()
      modifies this
      ensures open && errorMessage == old(errorMessage) && form == old(form)
    {
      open := true;
    }

    /** Resets the form, closes the dialog and clears the error. */
    method HandleClose()
      modifies this
      ensures !open && errorMessage == None && form == EMPTY_FORM
    {
      form := EMPTY_FORM;
      open := false;
      errorMessage := None;
    }

    /**
     * Submitting validated values clears the error and returns the body of
     * POST /products: the same values, the price already being a number.
     */
    method OnSubmit(values: FormValues) returns (payload: FormValues)
      modifies this
      ensures payload == values
      ensures errorMessage == None && open == old(open) && form == old(form)
    {
      errorMessage := None;
      payload := values;
    }

    /** A failed create keeps the dialog open and shows the error text. */
    method OnError(e: MutationError)
      modifies this
      ensures errorMessage == Some(ErrorText(e)) && open == old(open) && form == old(form)
    {
      errorMessage := Some(ErrorText(e));
    }

    /** A successful create prepends the product to the cache, then closes the dialog. */
    method OnSuccess(cache: QueryCache.ProductsQuery, created: Product)
      modifies this, cache
      ensures cache.data == Some(ApplyCreate(old(cache.data), created))
      ensures !open && errorMessage == None && form == EMPTY_FORM
    {
      cache.SetQueryData(prev => ApplyCreate(prev, created));
      HandleClose();
    }
  }
}
