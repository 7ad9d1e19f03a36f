/**
 * The product list of src/context/ProductContext.tsx. Each operation awaits a
 * request to the products endpoint and, only if it succeeds, updates the list;
 * a failed request is logged and swallowed. The request's result is a parameter.
 */
module ProductContext {
  import opened Numeros
  import Listas

  datatype Product = Product(
    id: int,
    name: string,
    metal_type: string,
    grams: real,
    purity: Option<real>,
    price_per_gram: real,
    image_path: Option<string>)

  /** How an awaited request settled: with the response body, or rejected. */
  datatype Response<T> = Ok(data: T) | Failed

  function ProductId(p: Product): int { p.id }

  class ProductStore {
    var products: seq<Product>

    constructor()
      ensures products == []
    {
      products := [];
    }

    /** `fetchAll`: the server's list replaces the whole list. */
    method FetchAll(res: Response<seq<Product>>)
      modifies this
      ensures products == if res.Ok? then res.data else old(products)
    {
      if res.Ok? {
        products := res.data;
      }
    }

    /** `create`: the product the server returns goes at the end. */
    method Create(res: Response<Product>)
      modifies this
      ensures products == if res.Ok? then old(products) + [res.data] else old(products)
    {
      if res.Ok? {
        products := products + [res.data];
      }
    }

    /** `update`: every product with that id becomes the returned one. */
    method Update(id: int, res: Response<Product>)
      modifies this
      ensures products == if res.Ok? then Listas.ReplaceById(old(products), ProductId, id, res.data)
                          else old(products)
    {
      if res.Ok? {
        products := Listas.ReplaceById(products, ProductId, id, res.data);
      }
    }

    /** `remove`: every product with that id is dropped. */
    method Remove(id: int, res: Response<()>)
      modifies this
      ensures products == if res.Ok? then Listas.RemoveById(old(products), ProductId, id)
                          else old(products)
    {
      if res.Ok? {
        products := Listas.RemoveById(products, ProductId, id);
      }
    }
  }
}
