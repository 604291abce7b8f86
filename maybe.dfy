/** The synchronous optional type `Maybe`. */
module Maybe {
  datatype Maybe<+T> = Nothing | Just(value: T)
}
