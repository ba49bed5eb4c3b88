// The two record shapes of the storefront (src/types/index.ts) and a
// small Option type used for "maybe found" and "maybe notified".
module Types {

  datatype Option<+T> = None | Some(value: T)

  /** A catalog offering. `price` is in whole dollars: every catalog price is an integer. */
  datatype Service = Service(
    id: string,
    name: string,
    description: string,
    price: int,
    category: string)

  /** A selection line: a service together with how many times it was added. */
  datatype Line = Line(item: Service, quantity: int)
}
