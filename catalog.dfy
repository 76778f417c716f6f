/** The fixed product catalog seeded into `products` at startup, with prices in cents. */
module Catalog {
  import opened Tables

  /** Image URLs of the seed products. */
  const HeadphonesImage: string := "https://images.unsplash.com/photo-1505740420928-5e560c06d30e?w=300&h=300&fit=crop"
  const SmartWatchImage: string := "https://images.unsplash.com/photo-1523275335684-37898b6baf30?w=300&h=300&fit=crop"
  const BackpackImage: string := "https://images.unsplash.com/photo-1553062407-98eeb64c6a62?w=300&h=300&fit=crop"
  const SpeakerImage: string := "https://images.unsplash.com/photo-1608043152269-423dbba4e7e1?w=300&h=300&fit=crop"
  const PhoneCaseImage: string := "https://images.unsplash.com/photo-1601593346740-925612772716?w=300&h=300&fit=crop"
  const CableImage: string := "https://images.unsplash.com/photo-1583394838336-acd977736f90?w=300&h=300&fit=crop"
  const MouseImage: string := "https://images.unsplash.com/photo-1527864550417-7fd91fc51a46?w=300&h=300&fit=crop"
  const DeskLampImage: string := "https://images.unsplash.com/photo-1507473885765-e6ed057f782c?w=300&h=300&fit=crop"

  /** The eight seed products, in insertion order. Their ids are distinct, as the
      `products` primary key requires of the seeding inserts. */
  function Seed(): (ps: seq<Product>)
    ensures DistinctProductIds(ps)
  {
    [ Product("1", "Wireless Headphones", 9999,
        HeadphonesImage,
        "High-quality wireless headphones with noise cancellation"),
      Product("2", "Smart Watch", 19999,
        SmartWatchImage,
        "Feature-rich smartwatch with health monitoring"),
      Product("3", "Laptop Backpack", 4999,
        BackpackImage,
        "Durable laptop backpack with multiple compartments"),
      Product("4", "Bluetooth Speaker", 7999,
        SpeakerImage,
        "Portable Bluetooth speaker with excellent sound quality"),
      Product("5", "Phone Case", 1999,
        PhoneCaseImage,
        "Protective phone case with stylish design"),
      Product("6", "USB-C Cable", 1499,
        CableImage,
        "Fast charging USB-C cable, 6ft length"),
      Product("7", "Wireless Mouse", 2999,
        MouseImage,
        "Ergonomic wireless mouse with precision tracking"),
      Product("8", "Desk Lamp", 3999,
        DeskLampImage,
        "LED desk lamp with adjustable brightness")
    ]
  }
}
