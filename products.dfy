/** The product record of the catalogue and facts about lists of products. */
module Products {

  datatype Option<+T> = None | Some(value: T)

  /** The `rating` sub-record; carried along but never inspected by the core. */
  datatype Rating = Rating(rate: real, count: int)

  /** A catalogue entry; `price` is a JavaScript number, kept here as an opaque real. */
  datatype Product = Product(
    id: int,
    title: string,
    price: real,
    description: string,
    category: string,
    image: string,
    rating: Rating)

  /** The fields of the create and edit forms. */
  datatype FormValues = FormValues(
    title: string,
    price: real,
    description: string,
    category: string,
    image: string)

  /** The forms' `defaultValues`, which `form.reset()` restores. */
  const EMPTY_FORM := FormValues("", 0.0, "", "", "")

  /** The cache entry as the updaters see it: a missing entry defaults to the empty list. */
  function OrEmpty(cache: Option<seq<Product>>): seq<Product> {
    match cache
    case None => []
    case Some(xs) => xs
  }

  /** Some element of `xs` carries `id`. */
  predicate HasId(xs: seq<Product>, id: int) {
    exists i :: 0 <= i < |xs| && xs[i].id == id
  }

  /** No two elements of `xs` carry the same id. */
  predicate UniqueIds(xs: seq<Product>) {
    forall i, j :: 0 <= i < j < |xs| ==> xs[i].id != xs[j].id
  }

  /** The ids of `xs`, position by position. */
  function Ids(xs: seq<Product>): seq<int> {
    seq(|xs|, i requires 0 <= i < |xs| => xs[i].id)
  }

  /** How many elements of `xs` carry `id`. */
  function CountId(xs: seq<Product>, id: int): (n: nat)
    ensures n <= |xs|
    ensures n == 0 <==> !HasId(xs, id)
  {
    if xs == [] then 0
    else
      assert forall i :: 0 < i < |xs| ==> xs[i] == xs[1..][i - 1];
      (if xs[0].id == id then 1 else 0) + CountId(xs[1..], id)
  }

  /** Under unique ids, an id that occurs at all occurs exactly once. */
  lemma {:induction false} UniqueIdOccursOnce(xs: seq<Product>, id: int)
    requires UniqueIds(xs) && HasId(xs, id)
    ensures CountId(xs, id) == 1
  {
    var rest := xs[1..];
    assert UniqueIds(rest) by {
      forall i, j | 0 <= i < j < |rest| ensures rest[i].id != rest[j].id {
        assert rest[i] == xs[i + 1] && rest[j] == xs[j + 1];
      }
    }
    if xs[0].id == id {
      assert !HasId(rest, id) by {
        forall i | 0 <= i < |rest| ensures rest[i].id != id {
          assert rest[i] == xs[i + 1];
        }
      }
    } else {
      var k :| 0 <= k < |xs| && xs[k].id == id;
      assert rest[k - 1] == xs[k];
      UniqueIdOccursOnce(rest, id);
    }
  }
}
