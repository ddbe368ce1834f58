/** Value types shared by the quiz deck, the live session and the host overlay. */
module Types {

  /** A value that may be missing: `null` or `undefined` in the source. */
  datatype Option<+T> = None | Some(value: T)

  /**
   * One quiz card. `options` is declared required, but the renderers guard
   * for it being missing because stored decks are parsed without validation,
   * so the model keeps that case. `category`, `imageUrl` and `funFact` are
   * optional fields.
   */
  datatype Question = Question(
    id: string,
    text: string,
    answer: string,
    options: Option<seq<string>>,
    imageUrl: Option<string>,
    category: Option<string>,
    funFact: Option<string>)
}
