/** What the error handlers can observe about a thrown or rejected JavaScript value. */
module JsValues {

  datatype Thrown =
    /** An instance of `Error` (or of a subclass such as `TypeError`). */
    | ErrorValue(message: string)
    /** A thrown string. */
    | StringValue(text: string)
    /** A non-`Error` object with a `message` member; `messageText` is `String(obj.message)`. */
    | MessageObject(messageText: string)
    /** Anything else: `null`, `undefined`, numbers, objects without `message`. */
    | OtherValue
}
