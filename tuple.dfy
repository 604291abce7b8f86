/** The pair type `Tuple`. */
module Tuple {
  datatype Tuple<+A, +B> = Tuple(fst: A, snd: B)
}
