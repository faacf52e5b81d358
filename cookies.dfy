/** The static catalog (src/data/cookies.ts). */
module Cookies {

  /** `CookieData`; `src` is the imported asset's file name and prices are whole rupees. */
  datatype CookieData = CookieData(id: string, name: string, price: int, description: string, src: string)

  /** The `cookies` array, in display order. */
  const Catalog: seq<CookieData> := [
    CookieData("choco-cookie", "Choco cookie", 70,
      "A delightful classic with rich chocolate chips, perfect for any time.", "Choco-cookie.jpg"),
    CookieData("oatmeal-cookie", "Oatmeal cookie", 65,
      "Hearty oatmeal cookie, a comforting and traditional treat.", "Oatmeal-cookie.jpg"),
    CookieData("white-choco-cookie", "White Choco cookie", 105,
      "Sweet and creamy white chocolate chunks baked into a soft, chewy cookie.", "white_choco-cookie.jpg"),
    CookieData("ginger-cookie", "Ginger cookie", 75,
      "Spicy and warm ginger cookie with a crisp edge and chewy center.", "ginger-cookie.jpg"),
    CookieData("peanut-cookie", "Peanut cookie", 95,
      "Rich and nutty, a classic peanut butter cookie with a soft texture.", "Peanut_butter-cookie.jpg"),
    CookieData("double-choco-cookie", "Double Choco cookie", 85,
      "Indulge in deep chocolate flavor with extra chocolate chunks.", "double-choco-cookie.jpg"),
    CookieData("cranberry-cookie", "Cranberry cookie", 80,
      "Sweet and tart cranberries baked into a delicious, chewy cookie.", "cranberry-cookie.jpg"),
    CookieData("coconut-cookie", "Coconut cookie", 85,
      "Tropical delight with shredded coconut for a tender and flavorful experience.", "coconut-cookie.jpg"),
    CookieData("almond-cookie", "Almond cookie", 120,
      "A premium cookie rich with the delicate, nutty flavor of almonds.", "almond-cookie.jpg"),
    CookieData("blueberry-cookie", "Blueberry cookie", 110,
      "Bursting with juicy blueberries, a delightful and fruity treat.", "blueberry-cookie.jpg")
  ]

  /** No two entries share an id. */
  predicate DistinctIds(catalog: seq<CookieData>) {
    forall i, j :: 0 <= i < j < |catalog| ==> catalog[i].id != catalog[j].id
  }

  /** Every price is a positive whole number of rupees. */
  predicate PositivePrices(catalog: seq<CookieData>) {
    forall i :: 0 <= i < |catalog| ==> catalog[i].price > 0
  }

  /** The catalog holds ten cookies with distinct ids and positive prices. */
  lemma CatalogShape()
    ensures |Catalog| == 10
    ensures DistinctIds(Catalog)
    ensures PositivePrices(Catalog)
  {
    forall i, j | 0 <= i < j < |Catalog| ensures Catalog[i].id != Catalog[j].id {
      assert Catalog[i].id[0] != Catalog[j].id[0] || Catalog[i].id[1] != Catalog[j].id[1];
    }
  }

  /** Almond is the most expensive cookie. */
  lemma AlmondMostExpensive()
    ensures Catalog[8].id == "almond-cookie" && Catalog[8].price == 120
    ensures forall i :: 0 <= i < |Catalog| ==> Catalog[i].price <= Catalog[8].price
    ensures forall i :: 0 <= i < |Catalog| && i != 8 ==> Catalog[i].price < Catalog[8].price
  {
  }

  /** White chocolate is priced above the basic chocolate cookie. */
  lemma WhiteChocoAboveChoco()
    ensures Catalog[0].id == "choco-cookie" && Catalog[2].id == "white-choco-cookie"
    ensures Catalog[2].price == 105 && Catalog[0].price == 70 && Catalog[2].price > Catalog[0].price
  {
  }
}
