/** The `Product` record shared by the storefront pages (frontend/src/data/products.ts).
    Prices are whole currency units as integers. */
module Catalog {
  datatype Product = Product(
    id: string,
    name: string,
    description: string,
    price: int,
    category: string,
    images: seq<string>,
    colors: seq<string>,
    sizes: seq<string>,
    stock: int,
    isFeatured: bool,
    isNew: bool)
}
