/** The client-side query cache entry under the key ['products']. */
module QueryCache {
  import opened Products

  class ProductsQuery {
    /** The cached product list; `None` until the first fetch has resolved. */
    var data: Option<seq<Product>>

    constructor ()
      ensures data == None
    {
      data := None;
    }

    /** The fetch of GET /products resolved with `products`. */
    method Resolve(products: seq<Product>)
      modifies this
      ensures data == Some(products)
    {
      data := Some(products);
    }

    /** `setQueryData(['products'], updater)`: the entry becomes the updater's result. */
    method SetQueryData(updater: Option<seq<Product>> -> seq<Product>)
      modifies this
      ensures data == Some(updater(old(data)))
    {
      data := Some(updater(data));
    }
  }
}
