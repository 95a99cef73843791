/** The two kinds of submission the platform takes. */
module Kinds {
  /** A founder's pitch or a seeker's application. */
  datatype Kind = Founder | Seeker
}
