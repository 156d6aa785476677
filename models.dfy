/** The records the application passes around (src/app/shared/models). */
module Models {

  /** A selectable user, as the user catalogue maps it from the remote API. */
  datatype User = User(
    id: string,
    name: string,
    email: string,
    city: string,
    country: string,
    phone: string,
    picture: string)

  /** A correlation code and its encrypted form. */
  datatype Cus = Cus(original: string, encrypted: string)

  /** A stored transaction; `createdAt` is kept as milliseconds since the epoch. */
  datatype Transaction = Transaction(
    id: string,
    user: User,
    amount: int,
    cus: Cus,
    createdAt: int)
}
