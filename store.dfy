/** The database client, as far as the services use it: the `user` and
    `product` tables as maps keyed by id, with the request errors the client
    raises. Query planning, `contains` matching and counting are an abstract
    query engine. */
module Store {
  import opened Wrappers
  import opened Domain
  import opened Exceptions

  /** One clause of a product `where` object. */
  datatype Condition =
    | CategoryContains(category: string)           // { category: { contains, mode: 'insensitive' } }
    | NameOrDescriptionContains(search: string)    // { OR: [ name contains, description contains ] }

  /** `{}` or `{ AND: [...] }` */
  datatype Where = MatchAll | And(conditions: seq<Condition>)

  datatype SortOrder = Asc | Desc

  /** The arguments of `product.findMany`. */
  datatype FindManyArgs = FindManyArgs(where: Where, skip: int, take: int, sortField: string, order: SortOrder)

  /** The client's evaluation of `findMany` and `count` on a product table. */
  datatype QueryEngine = QueryEngine(
    findMany: (map<int, Product>, FindManyArgs) -> seq<Product>,
    count: (map<int, Product>, Where) -> nat)

  /** The `data` of a product update: each field present is written. */
  datatype ProductPatch = ProductPatch(
    name: Option<string>,
    description: Option<string>,
    price: Option<real>,
    category: Option<string>)

  /** The `data` of a user update. */
  datatype UserPatch = UserPatch(email: Option<string>, password: Option<string>, role: Option<UserRole>)

  function Pick<T>(given: Option<T>, current: T): T {
    if given.Some? then given.value else current
  }

  function ApplyProductPatch(p: Product, d: ProductPatch): Product {
    Product(
      p.id,
      Pick(d.name, p.name),
      if d.description.Some? then d.description else p.description,
      Pick(d.price, p.price),
      Pick(d.category, p.category),
      p.userId)
  }

  function ApplyUserPatch(u: User, d: UserPatch): User {
    User(u.id, Pick(d.email, u.email), Pick(d.password, u.password), Pick(d.role, u.role))
  }

  const EmptyProductPatch := ProductPatch(None, None, None, None)

  /** An update writes the given fields and keeps the others and the keys;
      writing the same data twice is writing it once. */
  lemma ProductPatchLaws(p: Product, d: ProductPatch)
    ensures ApplyProductPatch(p, EmptyProductPatch) == p
    ensures ApplyProductPatch(ApplyProductPatch(p, d), d) == ApplyProductPatch(p, d)
    ensures var q := ApplyProductPatch(p, d);
      && q.id == p.id && q.userId == p.userId
      && (d.name.Some? ==> q.name == d.name.value) && (d.name.None? ==> q.name == p.name)
      && (d.description.Some? ==> q.description == d.description) && (d.description.None? ==> q.description == p.description)
      && (d.price.Some? ==> q.price == d.price.value) && (d.price.None? ==> q.price == p.price)
      && (d.category.Some? ==> q.category == d.category.value) && (d.category.None? ==> q.category == p.category)
  {
  }

  lemma UserPatchLaws(u: User, d: UserPatch)
    ensures ApplyUserPatch(u, UserPatch(None, None, None)) == u
    ensures ApplyUserPatch(ApplyUserPatch(u, d), d) == ApplyUserPatch(u, d)
    ensures var v := ApplyUserPatch(u, d);
      && v.id == u.id
      && (d.email.Some? ==> v.email == d.email.value) && (d.email.None? ==> v.email == u.email)
      && (d.password.Some? ==> v.password == d.password.value) && (d.password.None? ==> v.password == u.password)
      && (d.role.Some? ==> v.role == d.role.value) && (d.role.None? ==> v.role == u.role)
  {
  }

  /** The unique constraint on `User.email`. */
  ghost predicate UniqueEmails(users: map<int, User>) {
    forall a, b :: a in users && b in users && users[a].email == users[b].email ==> a == b
  }

  /** Some user other than `id` already has `email`. */
  ghost predicate EmailTakenByOther(users: map<int, User>, email: string, id: int) {
    exists other :: other in users && other != id && users[other].email == email
  }

  /** Writing `d` to user `id` would break the unique constraint. */
  ghost predicate PatchConflicts(users: map<int, User>, id: int, d: UserPatch) {
    d.email.Some? && EmailTakenByOther(users, d.email.value, id)
  }

  class Database {
    var users: map<int, User>
    var products: map<int, Product>
    /** The next values of the auto-increment keys. */
    var nextUserId: int
    var nextProductId: int
    const engine: QueryEngine

    /** Keys are the records' ids, below the next auto-increment value, and
        emails are unique. */
    ghost predicate Valid()
      reads this
    {
      && (forall id :: id in users ==> users[id].id == id && id < nextUserId)
      && (forall id :: id in products ==> products[id].id == id && id < nextProductId)
      && UniqueEmails(users)
    }

    constructor (engine: QueryEngine)
      ensures Valid()
      ensures users == map[] && products == map[] && this.engine == engine
    {
      users := map[];
      products := map[];
      nextUserId := 1;
      nextProductId := 1;
      this.engine := engine;
    }

    /** `user.findUnique({ where: { email } })` */
    method FindUserByEmail(email: string) returns (r: Option<User>)
      requires Valid()
      ensures r.None? <==> forall id :: id in users ==> users[id].email != email
      ensures r.Some? ==> r.value.id in users && users[r.value.id] == r.value && r.value.email == email
    {
      if exists id :: id in users && users[id].email == email {
        var id :| id in users && users[id].email == email;
        r := Some(users[id]);
      } else {
        r := None;
      }
    }

    /** `user.create`: a new id, or P2002 when the email is taken. */
    method CreateUser(email: string, password: string, role: UserRole) returns (r: Outcome<User>)
      requires Valid()
      modifies this
      ensures Valid()
      ensures EmailTakenByOther(old(users), email, old(nextUserId)) ==>
        r == Raised(PrismaKnownError(UniqueConstraintFailed)) && unchanged(this)
      ensures !EmailTakenByOther(old(users), email, old(nextUserId)) ==>
        && r == Returned(User(old(nextUserId), email, password, role))
        && old(nextUserId) !in old(users)
        && users == old(users)[old(nextUserId) := r.value]
        && nextUserId == old(nextUserId) + 1
        && products == old(products) && nextProductId == old(nextProductId)
    {
      if exists other :: other in users && users[other].email == email {
        return Raised(PrismaKnownError(UniqueConstraintFailed));
      }
      var u := User(nextUserId, email, password, role);
      users := users[nextUserId := u];
      nextUserId := nextUserId + 1;
      return Returned(u);
    }

    /** `user.update({ where: { id }, data })`: P2025 for a missing id, P2002
        for an email another user has. */
    method UpdateUser(id: int, d: UserPatch) returns (r: Outcome<User>)
      requires Valid()
      modifies this
      ensures Valid()
      ensures id !in old(users) ==> r == Raised(PrismaKnownError(RecordNotFound)) && unchanged(this)
      ensures id in old(users) && PatchConflicts(old(users), id, d) ==>
        r == Raised(PrismaKnownError(UniqueConstraintFailed)) && unchanged(this)
      ensures id in old(users) && !PatchConflicts(old(users), id, d) ==>
        && r == Returned(ApplyUserPatch(old(users)[id], d))
        && users == old(users)[id := r.value]
        && products == old(products) && nextUserId == old(nextUserId) && nextProductId == old(nextProductId)
    {
      if id !in users {
        return Raised(PrismaKnownError(RecordNotFound));
      }
      if d.email.Some? && exists other :: other in users && other != id && users[other].email == d.email.value {
        return Raised(PrismaKnownError(UniqueConstraintFailed));
      }
      var u := ApplyUserPatch(users[id], d);
      users := users[id := u];
      return Returned(u);
    }

    /** `user.delete({ where: { id } })` */
    method DeleteUser(id: int) returns (r: Outcome<User>)
      requires Valid()
      modifies this
      ensures Valid()
      ensures id !in old(users) ==> r == Raised(PrismaKnownError(RecordNotFound)) && unchanged(this)
      ensures id in old(users) ==>
        && r == Returned(old(users)[id])
        && users == old(users) - {id}
        && products == old(products) && nextUserId == old(nextUserId) && nextProductId == old(nextProductId)
    {
      if id !in users {
        return Raised(PrismaKnownError(RecordNotFound));
      }
      var u := users[id];
      users := users - {id};
      return Returned(u);
    }

    /** `user.findUnique({ where: { id } })` */
    function UserById(id: int): (r: Option<User>)
      reads this
      ensures r.Some? <==> id in users
      ensures r.Some? ==> r.value == users[id]
    {
      if id in users then Some(users[id]) else None
    }

    /** `product.findUnique({ where: { id } })` */
    function ProductById(id: int): (r: Option<Product>)
      reads this
      ensures r.Some? <==> id in products
      ensures r.Some? ==> r.value == products[id]
    {
      if id in products then Some(products[id]) else None
    }

    /** `product.create`: a new id for the given fields. */
    method CreateProduct(name: string, description: Option<string>, price: real, category: string, userId: int)
      returns (p: Product)
      requires Valid()
      modifies this
      ensures Valid()
      ensures p == Product(old(nextProductId), name, description, price, category, userId)
      ensures old(nextProductId) !in old(products)
      ensures products == old(products)[p.id := p] && nextProductId == old(nextProductId) + 1
      ensures users == old(users) && nextUserId == old(nextUserId)
    {
      p := Product(nextProductId, name, description, price, category, userId);
      products := products[nextProductId := p];
      nextProductId := nextProductId + 1;
    }

    /** `product.update({ where: { id }, data })` */
    method UpdateProduct(id: int, d: ProductPatch) returns (r: Outcome<Product>)
      requires Valid()
      modifies this
      ensures Valid()
      ensures id !in old(products) ==> r == Raised(PrismaKnownError(RecordNotFound)) && unchanged(this)
      ensures id in old(products) ==>
        && r == Returned(ApplyProductPatch(old(products)[id], d))
        && products == old(products)[id := r.value]
        && users == old(users) && nextUserId == old(nextUserId) && nextProductId == old(nextProductId)
    {
      if id !in products {
        return Raised(PrismaKnownError(RecordNotFound));
      }
      var p := ApplyProductPatch(products[id], d);
      products := products[id := p];
      return Returned(p);
    }

    /** `product.delete({ where: { id } })` */
    method DeleteProduct(id: int) returns (r: Outcome<Product>)
      requires Valid()
      modifies this
      ensures Valid()
      ensures id !in old(products) ==> r == Raised(PrismaKnownError(RecordNotFound)) && unchanged(this)
      ensures id in old(products) ==>
        && r == Returned(old(products)[id])
        && products == old(products) - {id}
        && users == old(users) && nextUserId == old(nextUserId) && nextProductId == old(nextProductId)
    {
      if id !in products {
        return Raised(PrismaKnownError(RecordNotFound));
      }
      var p := products[id];
      products := products - {id};
      return Returned(p);
    }
  }
}
