/** `ProductService`: product creation with an owner check, the filtered and
    paged listing, lookup, update and deletion with not-found mapping. */
module ProductService {
  import opened Wrappers
  import opened Text
  import opened Domain
  import opened Exceptions
  import opened Store

  const UserNotFoundMessage := "User not found. Invalid userId."

  /** The `category` and `search` filters of a listing. */
  datatype Filters = Filters(category: Option<string>, search: Option<string>)

  /** What the pagination helper computes from the caller's options. */
  datatype Pagination = Pagination(limit: int, page: int, skip: int, sortBy: string, sortOrder: string)

  /** A product as listed: every column except `userId`. */
  datatype ProductView = ProductView(id: int, name: string, description: Option<string>, price: real, category: string)

  datatype PageMeta = PageMeta(total: int, page: int, limit: int)

  datatype ProductPage = ProductPage(meta: PageMeta, data: seq<ProductView>)

  /** The clauses `getProducts` pushes: a category clause when `category` is
      truthy, then a search clause when `search` is truthy. */
  function Conditions(filters: Filters): (r: seq<Condition>)
    ensures |r| == (if Truthy(filters.category) then 1 else 0) + (if Truthy(filters.search) then 1 else 0)
    ensures forall k :: 0 <= k < |r| ==> (r[k].CategoryContains? <==> k == 0 && Truthy(filters.category))
    ensures Truthy(filters.category) ==> r[0] == CategoryContains(filters.category.value)
    ensures Truthy(filters.search) ==> r[|r| - 1] == NameOrDescriptionContains(filters.search.value)
  {
    (if Truthy(filters.category) then [CategoryContains(filters.category.value)] else [])
    + (if Truthy(filters.search) then [NameOrDescriptionContains(filters.search.value)] else [])
  }

  /** `{ AND: conditions }`, or `{}` for no conditions. */
  function WhereOf(conditions: seq<Condition>): (w: Where)
    ensures w == MatchAll <==> conditions == []
    ensures w.And? ==> w.conditions == conditions
  {
    if |conditions| > 0 then And(conditions) else MatchAll
  }

  const AllowedSortFields := ["price", "createdAt"]
  const DefaultSortField := "createdAt"

  /** The sort field is whitelisted: the requested one when allowed,
      `createdAt` otherwise. */
  function SortField(sortBy: string): (f: string)
    ensures f in AllowedSortFields
    ensures sortBy in AllowedSortFields ==> f == sortBy
    ensures sortBy !in AllowedSortFields ==> f == DefaultSortField
  {
    if sortBy in AllowedSortFields then sortBy else DefaultSortField
  }

  /** `asc` or `desc` as requested, `desc` for anything else. */
  function Order(sortOrder: string): (o: SortOrder)
    ensures sortOrder == "asc" ==> o == Asc
    ensures sortOrder != "asc" ==> o == Desc
  {
    if sortOrder == "asc" then Asc else if sortOrder == "desc" then Desc else Desc
  }

  function OrderName(o: SortOrder): string {
    if o == Asc then "asc" else "desc"
  }

  /** Normalising an already normalised sort request changes nothing. */
  lemma SortNormalisationIdempotent(sortBy: string, sortOrder: string)
    ensures SortField(SortField(sortBy)) == SortField(sortBy)
    ensures Order(OrderName(Order(sortOrder))) == Order(sortOrder)
  {
  }

  /** `const { userId, ...rest } = product` */
  function WithoutUserId(p: Product): ProductView {
    ProductView(p.id, p.name, p.description, p.price, p.category)
  }

  /** Putting an owner back. */
  function WithUserId(v: ProductView, userId: int): Product {
    Product(v.id, v.name, v.description, v.price, v.category, userId)
  }

  /** `result.map(...)`: one view per row, in order, and each row is its view
      plus only the `userId` that was removed. */
  function StripUserIds(rows: seq<Product>): (r: seq<ProductView>)
    ensures |r| == |rows|
    ensures forall k :: 0 <= k < |rows| ==> WithUserId(r[k], rows[k].userId) == rows[k]
  {
    if rows == [] then [] else [WithoutUserId(rows[0])] + StripUserIds(rows[1..])
  }

  /** Rows that differ only in their owners are listed identically. */
  lemma StripUserIdsForgetsOwners(a: seq<Product>, b: seq<Product>)
    requires |a| == |b|
    requires forall k :: 0 <= k < |a| ==> WithoutUserId(a[k]) == WithoutUserId(b[k])
    ensures StripUserIds(a) == StripUserIds(b)
  {
    var ra, rb := StripUserIds(a), StripUserIds(b);
    forall k | 0 <= k < |a|
      ensures ra[k] == rb[k]
    {
      assert WithUserId(ra[k], a[k].userId) == a[k];
      assert WithUserId(rb[k], b[k].userId) == b[k];
    }
  }

  /** `` `Product with ID ${id} not found` `` */
  function NotFoundMessage(id: int): string {
    "Product with ID " + IntToString(id) + " not found"
  }

  /** Different ids give different messages. */
  lemma NotFoundMessageInjective(a: int, b: int)
    requires NotFoundMessage(a) == NotFoundMessage(b)
    ensures a == b
  {
    var prefix, suffix := "Product with ID ", " not found";
    var sa, sb := IntToString(a), IntToString(b);
    assert NotFoundMessage(a) == prefix + sa + suffix;
    assert NotFoundMessage(b) == prefix + sb + suffix;
    assert |sa| == |sb|;
    assert sa == NotFoundMessage(a)[|prefix|..|prefix| + |sa|];
    assert sb == NotFoundMessage(b)[|prefix|..|prefix| + |sb|];
    IntToStringInjective(a, b);
  }

  /** The `catch` of `deleteProduct`: a not-found error of the client becomes
      404 with the id in its message; anything else is raised again as it is. */
  function DeleteError(id: int, error: Exception): (e: Exception)
    ensures error == PrismaKnownError(RecordNotFound) ==> e == NotFound(NotFoundMessage(id))
    ensures error != PrismaKnownError(RecordNotFound) ==> e == error
  {
    if error.PrismaKnownError? && error.code == RecordNotFound then NotFound(NotFoundMessage(id)) else error
  }

  class ProductService {
    const prisma: Database

    constructor (prisma: Database)
      ensures this.prisma == prisma
    {
      this.prisma := prisma;
    }

    /** `createProduct`: fails with a plain error and leaves the store alone
        when the owner does not exist; otherwise adds exactly one product,
        with the given fields, under a new id. */
    method CreateProduct(userId: int, name: string, description: Option<string>, price: real, category: string)
      returns (r: Outcome<Product>)
      requires prisma.Valid()
      modifies prisma
      ensures prisma.Valid()
      ensures userId !in old(prisma.users) ==> r == Raised(PlainError(UserNotFoundMessage)) && unchanged(prisma)
      ensures userId in old(prisma.users) ==>
        && r.Returned?
        && r.value == Product(r.value.id, name, description, price, category, userId)
        && r.value.id !in old(prisma.products)
        && prisma.products == old(prisma.products)[r.value.id := r.value]
        && prisma.users == old(prisma.users)
        && prisma.nextProductId == old(prisma.nextProductId) + 1 && prisma.nextUserId == old(prisma.nextUserId)
    {
      var userExists := prisma.UserById(userId);
      if userExists.None? {
        return Raised(PlainError(UserNotFoundMessage));
      }
      var p := prisma.CreateProduct(name, description, price, category, userId);
      return Returned(p);
    }

    /** `getProducts`: the page query and the count use the same where
        object, built from the truthy filters; the sort is normalised; the
        rows come back without owners. */
    method GetProducts(filters: Filters, pagination: Pagination) returns (page: ProductPage)
      ensures var where := WhereOf(Conditions(filters));
        var args := FindManyArgs(where, pagination.skip, pagination.limit, SortField(pagination.sortBy), Order(pagination.sortOrder));
        && page.meta == PageMeta(prisma.engine.count(prisma.products, where), pagination.page, pagination.limit)
        && page.data == StripUserIds(prisma.engine.findMany(prisma.products, args))
    {
      var andConditions: seq<Condition> := [];
      if Truthy(filters.category) {
        andConditions := andConditions + [CategoryContains(filters.category.value)];
      }
      if Truthy(filters.search) {
        andConditions := andConditions + [NameOrDescriptionContains(filters.search.value)];
      }
      assert andConditions == Conditions(filters);
      var whereConditions := if |andConditions| > 0 then And(andConditions) else MatchAll;
      var sortField := if pagination.sortBy in AllowedSortFields then pagination.sortBy else DefaultSortField;
      var order := if pagination.sortOrder == "asc" then Asc else Desc;
      var result := prisma.engine.findMany(prisma.products, FindManyArgs(whereConditions, pagination.skip, pagination.limit, sortField, order));
      var filteredResult := StripUserIds(result);
      var total := prisma.engine.count(prisma.products, whereConditions);
      page := ProductPage(PageMeta(total, pagination.page, pagination.limit), filteredResult);
    }

    /** `getProductById`: the stored product, or `null`. */
    method GetProductById(id: int) returns (r: Option<Product>)
      ensures r.Some? <==> id in prisma.products
      ensures r.Some? ==> r.value == prisma.products[id]
    {
      r := prisma.ProductById(id);
    }

    /** `updateProduct`: the client's update; a missing id is the client's
        P2025 error, not mapped. */
    method UpdateProduct(id: int, data: ProductPatch) returns (r: Outcome<Product>)
      requires prisma.Valid()
      modifies prisma
      ensures prisma.Valid()
      ensures id !in old(prisma.products) ==> r == Raised(PrismaKnownError(RecordNotFound)) && unchanged(prisma)
      ensures id in old(prisma.products) ==>
        && r == Returned(ApplyProductPatch(old(prisma.products)[id], data))
        && prisma.products == old(prisma.products)[id := r.value]
        && prisma.users == old(prisma.users)
        && prisma.nextProductId == old(prisma.nextProductId) && prisma.nextUserId == old(prisma.nextUserId)
    {
      r := prisma.UpdateProduct(id, data);
    }

    /** `deleteProduct`: `true` once the product is gone; a missing id is
        404 "Product with ID <id> not found" and the store is left alone. */
    method DeleteProduct(id: int) returns (r: Outcome<bool>)
      requires prisma.Valid()
      modifies prisma
      ensures prisma.Valid()
      ensures id !in old(prisma.products) ==> r == Raised(NotFound(NotFoundMessage(id))) && unchanged(prisma)
      ensures id in old(prisma.products) ==>
        && r == Returned(true)
        && prisma.products == old(prisma.products) - {id}
        && prisma.users == old(prisma.users)
        && prisma.nextProductId == old(prisma.nextProductId) && prisma.nextUserId == old(prisma.nextUserId)
    {
      var deleted := prisma.DeleteProduct(id);
      if deleted.Raised? {
        return Raised(DeleteError(id, deleted.exception));
      }
      return Returned(true);
    }
  }
}
