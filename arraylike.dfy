/** `toArray` (src/util.ts lines 93-101). */
module ArrayLike {
  /**
   * Copies an indexable collection (`arrayLike[i]` for every `i` below its
   * `length`, read once) into a new array by pushing each element in turn.
   */
  method ToArray<T>(arrayLike: seq<T>) returns (arr: seq<T>)
    ensures arr == arrayLike
  {
    arr := [];
    var i, l := 0, |arrayLike|;
    while i < l
      invariant 0 <= i <= l
      invariant arr == arrayLike[..i]
    {
      arr := arr + [arrayLike[i]];
      i := i + 1;
    }
  }
}
