/** Small facts about sequences the rasterizer loops rely on. */
module Sequences {

  /** Appending one element and then a tail is prepending that element to the tail. */
  lemma AppendHead<T>(a: seq<T>, h: T, b: seq<T>)
    ensures (a + [h]) + b == a + ([h] + b)
  {
  }
}
