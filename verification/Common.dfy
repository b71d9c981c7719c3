/** Small shared vocabulary. */
module Common {
  datatype Option<+T> = None | Some(value: T)

  /** A set of integers is empty or has a member to pick. */
  lemma Inhabited(s: set<int>)
    ensures s == {} || exists k :: k in s
  {
    if forall k :: k !in s { assert s == {}; }
  }
}
