/** Values shared by the element model and the binders. */
module Values {

  /** Kotlin's nullable: None is `null`. */
  datatype Option<+T> = None | Some(value: T) {
    /** The `?:` operator: the value, or the default when absent. */
    function GetOr(default: T): T {
      match this
      case Some(v) => v
      case None => default
    }
  }

  /**
   * A committed element value. The element kinds of this core hold text
   * (edit texts, tokens), integers (sliders), flags (switches) or token lists.
   */
  datatype Value = Text(s: string) | Number(n: int) | Flag(b: bool) | TokenList(tokens: seq<string>)
}
