/** Types shared by all modules: the document object the pipeline passes
    around, its metadata values, and the Python exceptions the modelled code
    raises. */
module Common {

  datatype Option<T> = None | Some(value: T)

  /** The Python exceptions raised by the modelled code. */
  datatype PyError =
    | ValueError(message: string)
    | FileNotFoundError(path: string)
    | NameError(name: string)
    | AttributeError(attribute: string)
    | TypeError(argumentType: string)  // the offending argument's type; the wording varies by version
    | LoadError            // whatever the persisted-index reader raises

  /** A value, or the exception raised instead of returning one. */
  datatype Result<T> = Ok(value: T) | Err(error: PyError)

  /** A metadata value: the pipeline stores strings (source, parent_id,
      doc_type, category, dish_name, difficulty) and one float (final_score). */
  datatype MetaValue = Text(text: string) | Score(score: real)

  /** A document object. Its content is never rewritten by the modelled code,
      so it is a constant; its metadata dictionary is updated in place and the
      update is seen by every holder of the object. */
  class Document {
    const content: string
    var metadata: map<string, MetaValue>

    constructor (content: string, metadata: map<string, MetaValue>)
      ensures this.content == content && this.metadata == metadata
    {
      this.content := content;
      this.metadata := metadata;
    }
  }
}
