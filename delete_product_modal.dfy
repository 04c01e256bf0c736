/** The "Delete Product" dialog and the cache update it applies after a successful delete. */
module DeleteProductModal {
  import opened Products
  import opened Sequences
  import opened MutationErrors
  import ProductsList
  import QueryCache

  /** `xs.filter(item => item.id !== id)`. */
  function WithoutId(xs: seq<Product>, id: int): (r: seq<Product>)
    ensures |r| <= |xs|
    ensures forall i :: 0 <= i < |r| ==> r[i] in xs && r[i].id != id
    ensures forall i :: 0 <= i < |xs| && xs[i].id != id ==> xs[i] in r
  {
    if xs == [] then []
    else
      var rest := WithoutId(xs[1..], id);
      assert forall i :: 0 < i < |xs| ==> xs[i] == xs[1..][i - 1];
      if xs[0].id != id then [xs[0]] + rest else rest
  }

  /** The updater `(old = []) => old.filter(item => item.id !== data.id)`. */
  function ApplyDelete(cache: Option<seq<Product>>, id: int): (r: seq<Product>)
    ensures !HasId(r, id)
  {
    WithoutId(OrEmpty(cache), id)
  }

  /** A missing cache entry yields the empty list. */
  lemma DeleteOnMissingCache(id: int)
    ensures ApplyDelete(None, id) == []
  {
  }

  /** The survivors keep their relative order. */
  lemma {:induction false} DeleteIsSubsequence(xs: seq<Product>, id: int)
    ensures IsSubsequence(WithoutId(xs, id), xs)
  {
    if xs != [] {
      DeleteIsSubsequence(xs[1..], id);
      var r := WithoutId(xs, id);
      if xs[0].id != id {
        assert r[1..] == WithoutId(xs[1..], id);
      }
    }
  }

  /** Each element with another id survives as often as it occurs; the others are gone. */
  lemma {:induction false} DeleteCounts(xs: seq<Product>, id: int, p: Product)
    ensures multiset(WithoutId(xs, id))[p] == if p.id != id then multiset(xs)[p] else 0
  {
    if xs != [] {
      DeleteCounts(xs[1..], id, p);
      assert xs == [xs[0]] + xs[1..];
    }
  }

  /** The list shrinks by the number of elements carrying the id. */
  lemma {:induction false} DeleteLength(xs: seq<Product>, id: int)
    ensures |WithoutId(xs, id)| == |xs| - CountId(xs, id)
  {
    if xs != [] {
      DeleteLength(xs[1..], id);
    }
  }

  /** An id carried once (as ids are unique) costs exactly one element. */
  lemma DeleteOne(xs: seq<Product>, id: int)
    requires UniqueIds(xs) && HasId(xs, id)
    ensures |WithoutId(xs, id)| == |xs| - 1
  {
    UniqueIdOccursOnce(xs, id);
    DeleteLength(xs, id);
  }

  /** Deleting an id that is not in the list changes nothing. */
  lemma {:induction false} DeleteAbsent(xs: seq<Product>, id: int)
    requires !HasId(xs, id)
    ensures WithoutId(xs, id) == xs
  {
    if xs != [] {
      assert !HasId(xs[1..], id) by {
        forall i | 0 <= i < |xs[1..]| ensures xs[1..][i].id != id {
          assert xs[1..][i] == xs[i + 1];
        }
      }
      DeleteAbsent(xs[1..], id);
    }
  }

  /** Deleting twice is deleting once. */
  lemma DeleteIdempotent(cache: Option<seq<Product>>, id: int)
    ensures ApplyDelete(Some(ApplyDelete(cache, id)), id) == ApplyDelete(cache, id)
  {
    DeleteAbsent(ApplyDelete(cache, id), id);
  }

  /** Only removing elements, the delete keeps ids unique. */
  lemma {:induction false} DeleteKeepsUniqueIds(xs: seq<Product>, id: int)
    requires UniqueIds(xs)
    ensures UniqueIds(WithoutId(xs, id))
  {
    if xs != [] {
      var rest := xs[1..];
      assert UniqueIds(rest) by {
        forall i, j | 0 <= i < j < |rest| ensures rest[i].id != rest[j].id {
          assert rest[i] == xs[i + 1] && rest[j] == xs[j + 1];
        }
      }
      DeleteKeepsUniqueIds(rest, id);
      var r, tail := WithoutId(xs, id), WithoutId(rest, id);
      if xs[0].id != id {
        forall j | 0 <= j < |tail| ensures tail[j].id != xs[0].id {
          var k :| 0 <= k < |rest| && rest[k] == tail[j];
          assert rest[k] == xs[k + 1];
        }
      }
    }
  }

  class DeleteDialog {
    /** The screen whose dialog state this dialog reads and resets. */
    const view: ProductsList.ProductsView
    var errorMessage: Option<string>

    constructor (view: ProductsList.ProductsView)
      ensures this.view == view && errorMessage == None
    {
      this.view := view;
      errorMessage := None;
    }

    /** The dialog renders only for "delete" with a target product. */
    predicate IsOpen()
      reads this, view
      ensures IsOpen() ==> view.dialog != ProductsList.CLOSED && view.dialog.data.Some?
    {
      view.dialog.open == "delete" && view.dialog.data.Some?
    }

    /** The "Delete" button: the id sent in DELETE /products/{id} is the target's. */
    method Confirm() returns (id: int)
      requires IsOpen()
      ensures id == view.dialog.data.value.id
    {
      id := view.dialog.data.value.id;
    }

    /** Closes the screen's dialog; the error text is left as it was. */
    method HandleClose()
      modifies view
      ensures view.dialog == ProductsList.CLOSED
      ensures view.search == old(view.search) && view.category == old(view.category)
      ensures !IsOpen()
    {
      view.SetDialog(ProductsList.CLOSED);
    }

    /** A failed delete keeps the dialog open and shows the error text. */
    method OnError(e: MutationError)
      modifies this
      ensures errorMessage == Some(ErrorText(e))
    {
      errorMessage := Some(ErrorText(e));
    }

    /**
     * A successful delete removes the id the server reports from the cache, then closes
     * the dialog, leaving the error text untouched.
     */
    method OnSuccess(cache: QueryCache.ProductsQuery, deleted: Product)
      modifies view, cache
      ensures cache.data == Some(ApplyDelete(old(cache.data), deleted.id))
      ensures view.dialog == ProductsList.CLOSED && errorMessage == old(errorMessage)
      ensures view.search == old(view.search) && view.category == old(view.category)
      ensures !IsOpen()
    {
      cache.SetQueryData(prev => ApplyDelete(prev, deleted.id));
      HandleClose();
    }
  }
}
