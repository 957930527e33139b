/** The optional value used for a choice's follow-up dilemma (`nextDilemma?` in the source). */
module Wrappers {

  datatype Option<+T> = None | Some(value: T)

}
