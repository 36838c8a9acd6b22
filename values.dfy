/** The values that flow through the filter engine: the JSON-like payload of
    a filter descriptor, and the exceptions the engine raises. */
module Values {

  /** A Python value as it can reach a filter: an int, a str, a
      `datetime.date`, a list, or `None`. */
  datatype Value =
    | Int(i: int)
    | Str(s: string)
    | Date(year: nat, month: nat, day: nat)
    | List(items: seq<Value>)
    | Null

  /** One entry of a field's message list: a text, or the dictionary a
      validator raised, which marshmallow appends to the list as it stands. */
  datatype Message =
    | TextMessage(text: string)
    | DictMessage(messages: map<string, seq<string>>)

  /** The messages marshmallow stores for one field of a descriptor that
      failed to load. */
  type FieldError = seq<Message>

  /** The exceptions of the core. */
  datatype Error =
      /** `marshmallow.ValidationError` raised with a plain message. */
    | ValidationError(message: string)
      /** `marshmallow.ValidationError` raised with a dictionary message. */
    | OperatorError(messages: map<string, seq<string>>)
      /** `ValidationError` from `FilterSchema.load` of one descriptor: the messages per field. */
    | InvalidFields(fields: map<string, FieldError>)
      /** `ValidationError` from `FilterSchema.load(..., many=True)`: the messages per item index. */
    | InvalidItems(items: map<nat, map<string, FieldError>>)
    | TypeError(message: string)
      /** `getattr(owner, name)` on a model that has no such attribute. */
    | AttributeError(owner: string, name: string)
}
