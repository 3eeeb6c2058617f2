/**
 * The sample catalogue init_database inserts into an empty `productos`
 * table, with the ids AUTOINCREMENT gives them, and checks of the queries
 * against it.
 */
module Seed {
  import opened Wrappers
  import opened SqlLike
  import opened Tables

  /** The 18 sample products, ids 1 to 18 in insertion order; prices in cents. */
  function Catalogue(): (r: seq<Product>)
    ensures |r| == 18
  {
    [
      Product(1, "AMD Ryzen 9 7950X", "Procesadores", 248000000, Some("Procesador 16 núcleos, 32 hilos, 4.5GHz base"), 8, Some("1234567890123"), Some("ryzen_9_7950x.jpg")),
      Product(2, "Intel Core i9-13900K", "Procesadores", 271500000, Some("Procesador 24 núcleos, 32 hilos, hasta 5.8GHz"), 12, Some("1234567890124"), Some("intel_i9_13900k.jpg")),
      Product(3, "AMD Ryzen 7 7700X", "Procesadores", 126900010, Some("Procesador 8 núcleos, 16 hilos, 4.5GHz base"), 15, Some("1234567890125"), Some("ryzen_7_7700x.jpg")),
      Product(4, "NVIDIA RTX 4090", "Tarjetas Gráficas", 1369337436, Some("GPU de alta gama, 24GB GDDR6X"), 5, Some("1234567890126"), Some("rtx_4090.jpg")),
      Product(5, "AMD RX 7900 XTX", "Tarjetas Gráficas", 450000014, Some("GPU potente, 24GB GDDR6"), 7, Some("1234567890127"), Some("rx_7900_xtx.jpg")),
      Product(6, "NVIDIA RTX 4070", "Tarjetas Gráficas", 499175014, Some("GPU gaming, 12GB GDDR6X"), 10, Some("1234567890128"), Some("rtx_4070.jpg")),
      Product(7, "Corsair Vengeance DDR5 32GB", "Memorias RAM", 97562025, Some("Kit 2x16GB DDR5-5600MHz RGB"), 20, Some("1234567890129"), Some("corsair_ddr5_32gb.jpg")),
      Product(8, "G.Skill Trident Z5 RGB 16GB", "Memorias RAM", 52000025, Some("Kit 2x8GB DDR5-6000MHz"), 25, Some("1234567890130"), Some("gskill_ddr5_16gb.jpg")),
      Product(9, "Kingston Fury Beast 64GB", "Memorias RAM", 10714345, Some("Kit 4x16GB DDR4-3200MHz"), 8, Some("1234567890131"), Some("kingston_64gb.jpg")),
      Product(10, "ASUS ROG Strix X670E-E", "Motherboards", 210590025, Some("Placa AM5, WiFi 6E, PCIe 5.0"), 6, Some("1234567890132"), Some("asus_x670e.jpg")),
      Product(11, "MSI MAG B550 Tomahawk", "Motherboards", 74900014, Some("Placa AM4, PCIe 4.0, USB-C"), 12, Some("1234567890133"), Some("msi_b550.jpg")),
      Product(12, "Gigabyte Z790 AORUS Elite", "Motherboards", 1315000024, Some("Placa LGA1700, DDR5, WiFi 6"), 9, Some("1234567890134"), Some("gigabyte_z790.jpg")),
      Product(13, "Samsung 980 PRO 2TB", "Almacenamiento", 41500058, Some("SSD NVMe M.2, 7000MB/s lectura"), 15, Some("1234567890135"), Some("samsung_980_pro.jpg")),
      Product(14, "WD Black SN850X 1TB", "Almacenamiento", 227340025, Some("SSD NVMe gaming, 7300MB/s"), 20, Some("1234567890136"), Some("wd_black_sn850x.jpg")),
      Product(15, "Seagate IronWolf 4TB", "Almacenamiento", 99850069, Some("HDD NAS, 5400RPM, CMR"), 18, Some("1234567890137"), Some("seagate_ironwolf.jpg")),
      Product(16, "Corsair RM850x", "Fuentes de Poder", 93025285, Some("850W 80+ Gold modular"), 12, Some("1234567890138"), Some("corsair_rm850x.jpg")),
      Product(17, "EVGA SuperNOVA 1000W", "Fuentes de Poder", 18752065, Some("1000W 80+ Platinum modular"), 8, Some("1234567890139"), Some("evga_1000w.jpg")),
      Product(18, "Seasonic Focus GX-650", "Fuentes de Poder", 58400035, Some("650W 80+ Gold semi-modular"), 15, Some("1234567890140"), Some("seasonic_650w.jpg"))
    ]
  }

  /** The scanner's sample code finds the Ryzen 9 7950X. */
  lemma LookupSampleBarcode()
    ensures FindByBarcode(Catalogue(), "1234567890123") == Some(Catalogue()[0])
    ensures Catalogue()[0].name == "AMD Ryzen 9 7950X"
  {
  }

  /** A code no product carries finds nothing. */
  lemma LookupUnknownBarcode()
    ensures FindByBarcode(Catalogue(), "nonexistent") == None
  {
    CatalogueRows();
    FindByBarcodeOtherLength(Catalogue(), "nonexistent");
  }

  /** Row i has id i + 1, a price and a stock that are not negative, and a 13-digit barcode. */
  lemma CatalogueRows()
    ensures forall i :: 0 <= i < |Catalogue()| ==>
      var p := Catalogue()[i];
      p.id == i + 1 && p.price >= 0 && p.stock >= 0 && p.barcode.Some? && |p.barcode.value| == 13
  {
  }

  /** The three processors are the first rows of the catalogue. */
  lemma ProcessorsFirst()
    ensures forall i :: 0 <= i < |Catalogue()| ==> (Catalogue()[i].category == "Procesadores" <==> i < 3)
  {
  }

  /** The 'Procesadores' button lists the three processors, in table order. */
  lemma ListSampleProcessors()
    ensures ListProducts(Catalogue(), Some("Procesadores"), None) == Catalogue()[..3]
  {
    ProcessorsFirst();
    ListProductsCategoryBlock(Catalogue(), "Procesadores", 3);
  }

  /** The 'Todos' button lists the whole catalogue. */
  lemma ListSampleAll()
    ensures ListProducts(Catalogue(), Some("Todos"), None) == Catalogue()
  {
    ListProductsUnfiltered(Catalogue(), Some("Todos"), None);
  }

  /** The search ignores ASCII case: "ryzen" finds every product whose name contains "Ryzen". */
  lemma SearchIgnoresCase(products: seq<Product>, p: Product, i: nat)
    requires p in products && i + 5 <= |p.name| && p.name[i..i + 5] == "Ryzen"
    ensures p in ListProducts(products, None, Some("ryzen"))
  {
    var rest := p.name[i..];
    forall k | 0 <= k < 5 ensures CharMatches(rest[k], "ryzen"[k]) {
      assert rest[k] == p.name[i..i + 5][k];
    }
    assert PrefixFold("ryzen", rest);
    ListProductsBySearch(products, "ryzen", p);
  }
}
