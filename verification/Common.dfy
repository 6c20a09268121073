/** Optional values, shared by the modules of this project. */
module Options {
  datatype Option<+T> = None | Some(value: T)
}

module Sets {
  lemma {:induction false} SubsetSize<T>(part: set<T>, whole: set<T>)
    requires part <= whole
    ensures |part| <= |whole|
  {
    assert whole == part + (whole - part);
  }
}
