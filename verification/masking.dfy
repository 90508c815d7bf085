/** The secret holder used for every credential field before it is turned into a
    connector authentication value. Its content is read only through `Peek`. */
module Masking {

  /** A string held behind a redacting wrapper. */
  datatype Secret = Secret(hidden: string) {

    /** The one deliberate way to read the held string. Wrapping what it returns
        gives back the same secret, so no two distinct secrets peek alike. */
    function Peek(): (s: string)
      ensures Secret(s) == this
    {
      hidden
    }
  }
}
