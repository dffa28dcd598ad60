/**
 * `ProductRepository` (app/repositories/product_repository.py): a
 * `BaseRepository` whose collection starts as None and is assigned the
 * "products" collection by `initialize`, which every public operation calls
 * first. Python inheritance is modelled by composition: `base` is this
 * repository seen as a `BaseRepository`, and `base.collection` is its
 * `self.collection`.
 */
module ProductRepositories {
  import opened Wrappers
  import opened Documents
  import opened Store
  import opened BaseRepositories

  class ProductRepository {
    const base: BaseRepository
    /** What `mongodb.get_collection("products")` returns. */
    const products: Collection

    ghost predicate Valid()
      reads this, base, products
    {
      && (base.collection == null || base.collection == products)
      && products.Valid()
    }

    constructor (products: Collection)
      requires products.Valid()
      ensures Valid() && fresh(base)
      ensures base.collection == null && this.products == products
    {
      base := new BaseRepository(null);
      this.products := products;
    }

    /** `initialize`: assigns the collection only when it is still None. */
    method Initialize()
      requires Valid()
      modifies base
      ensures Valid()
      ensures old(base.collection) == null ==> base.collection == products
      ensures old(base.collection) != null ==> base.collection == old(base.collection)
    {
      if base.collection == null {
        base.collection := products;
      }
    }

    method GetById(id: string, fault: Option<string>) returns (r: Result<Document, RepoError>)
      requires Valid()
      modifies base
      ensures Valid() && base.collection == products
      ensures r == FindByIdOutcome(products.docs, id, fault)
    {
      Initialize();
      r := base.FindById(id, fault);
    }

    method Update(id: string, fields: Document, fault: Option<string>, rereadFault: Option<string>)
      returns (r: Result<Document, RepoError>)
      requires Valid() && IdKey !in fields
      modifies base, products
      ensures Valid() && base.collection == products && products.order == old(products.order)
      ensures products.docs == UpdatedDocs(old(products.docs), id, fields, fault)
      ensures r == UpdateOutcome(old(products.docs), id, fields, fault, rereadFault)
    {
      Initialize();
      r := base.Update(id, fields, fault, rereadFault);
    }

    method Delete(id: string, fault: Option<string>) returns (r: Result<bool, RepoError>)
      requires Valid()
      modifies base, products
      ensures Valid() && base.collection == products
      ensures products.docs == DeletedDocs(old(products.docs), id, fault)
      ensures products.order == DeletedOrder(old(products.order), id, fault)
      ensures r == DeleteOutcome(old(products.docs), id, fault)
    {
      Initialize();
      r := base.Delete(id, fault);
    }
  }
}
