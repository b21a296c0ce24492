/** The records of the application: the database models `User` and `Product`
    with the role enumeration, and the claims a bearer token carries. */
module Domain {
  import opened Wrappers

  /** The database enumeration `UserRole`, with its own value names. */
  datatype UserRole = user | admin

  /** What a verified token yields and the guard attaches as `request.user`. */
  datatype Claims = Claims(userId: int, role: UserRole, iat: int, exp: int)

  /** What `login` signs into a token. */
  datatype TokenPayload = TokenPayload(userId: int, role: UserRole)

  /** JavaScript truthiness of an optional string: present and not empty. */
  predicate Truthy(s: Option<string>) {
    s.Some? && s.value != ""
  }

  datatype User = User(id: int, email: string, password: string, role: UserRole)

  datatype Product = Product(
    id: int,
    name: string,
    description: Option<string>,
    price: real,
    category: string,
    userId: int)
}
