/** Worked examples of the catalogue pipeline on a two-product cache. */
module Scenarios {
  import opened Products
  import opened Text
  import Sequences
  import ProductsList
  import AddProductModal
  import DeleteProductModal

  function Item(id: int, title: string, category: string, price: real): Product {
    Product(id, title, price, "", category, "", Rating(0.0, 0))
  }

  const SHOE := Item(1, "Shoe", "shoes", 10.0)
  const HAT := Item(2, "Hat", "hats", 5.0)
  const SOCK := Item(3, "Sock", "shoes", 3.0)

  /** Creating the sock puts it in front of the shoe and the hat. */
  lemma CreateScenario()
    ensures AddProductModal.ApplyCreate(Some([SHOE, HAT]), SOCK) == [SOCK, SHOE, HAT]
  {
  }

  /** Deleting id 1 leaves only the hat. */
  lemma DeleteScenario()
    ensures DeleteProductModal.ApplyDelete(Some([SHOE, HAT]), 1) == [HAT]
  {
    assert [SHOE, HAT][1..] == [HAT];
    assert DeleteProductModal.WithoutId([HAT], 1) == [HAT] by {
      assert [HAT][1..] == [];
    }
  }

  lemma TitleShoeIncludesHo()
    ensures Includes(Lower(SHOE.title), Lower("ho"))
  {
    assert Lower("ho") == "ho";
    assert Lower("Shoe") == "shoe";
    assert "shoe"[1..] == "hoe" && StartsWith("hoe", "ho");
  }

  lemma HatLowerCase()
    ensures Lower(HAT.title) == "hat" && Lower(HAT.category) == "hats" && Lower("ho") == "ho"
  {
  }

  lemma HatExcludesHo()
    ensures !Includes("hat", "ho") && !Includes("hats", "ho")
  {
    var ho: string := "ho";
    assert ho[0] == 'h';
    assert "hat"[1..] == "at" && 'h' !in "at";
    assert "hats"[1..] == "ats" && 'h' !in "ats";
    if Includes("at", ho) {
      IncludesFirstChar("at", ho);
    }
    if Includes("ats", ho) {
      IncludesFirstChar("ats", ho);
    }
    assert "hat"[..2][1] != ho[1] && "hats"[..2][1] != ho[1];
  }

  /** Searching "ho" finds the shoe by its title; "hats" contains no "ho". */
  lemma SearchScenario()
    ensures ProductsList.Filter([SHOE, HAT], "ho", ProductsList.ALL) == [SHOE]
  {
    TitleShoeIncludesHo();
    HatLowerCase();
    HatExcludesHo();
    assert ProductsList.Matches(SHOE, "ho", ProductsList.ALL);
    assert !ProductsList.Matches(HAT, "ho", ProductsList.ALL);
    assert [SHOE, HAT][1..] == [HAT] && [HAT][1..] == [];
  }

  /** Upper-case search text finds the same products as its lower-case form. */
  lemma UpperCaseScenario()
    ensures ProductsList.Filter([SHOE, HAT], "SHOE", ProductsList.ALL)
         == ProductsList.Filter([SHOE, HAT], "shoe", ProductsList.ALL)
  {
    assert Lower("SHOE") == "shoe";
    ProductsList.FilterCaseInsensitive([SHOE, HAT], "SHOE", ProductsList.ALL);
  }

  /** The category options of the cache. */
  lemma CategoriesScenario()
    ensures ProductsList.Categories(Some([SHOE, HAT, SOCK])) == ["all", "shoes", "hats"]
  {
    var cs: seq<string> := ["shoes", "hats", "shoes"];
    assert ProductsList.CategoryList([SHOE, HAT, SOCK]) == cs;
    var one: seq<string>, two: seq<string> := ["shoes"], ["shoes", "hats"];
    assert one[..0] == [] && two[..1] == one && cs[..2] == two;
    assert Sequences.Distinct(one) == one;
    assert Sequences.Distinct(two) == two;
  }
}
