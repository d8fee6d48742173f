/** `User`: an account as the users table stores it. */
module Users {
  import opened Nullable

  datatype User = User(
    id: int,
    name: Option<string>,
    email: Option<string>,
    password: Option<string>,
    profileImage: Option<string>,
    googleId: Option<string>,
    createdAt: Option<string>,
    updatedAt: Option<string>)

  /** `new User()`: id 0 and every text `null`. */
  const EmptyUser: User := User(0, None, None, None, None, None, None, None)

  /** The registration constructor `User(name, email, password)`. */
  function NewUser(name: Option<string>, email: Option<string>, password: Option<string>): (u: User)
    ensures u.name == name && u.email == email && u.password == password
    ensures u.(name := None, email := None, password := None) == EmptyUser
  {
    EmptyUser.(name := name, email := email, password := password)
  }
}
