/** Embedding vectors, whose entries are reals. */
module Vectors {
  type Vector = seq<real>
}
