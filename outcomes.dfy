/**
 * What the remote collaborators (post search, chat completion, reply posting)
 * can hand back to the handler, as plain values. A thrown JavaScript value is
 * an `ErrorValue`; the handler only ever looks at its `code` and `message`.
 */
module Outcomes {

  datatype Option<+T> = None | Some(value: T)

  /** A value caught by a `catch` clause. */
  datatype ErrorValue =
    | ErrorObject(code: Option<int>, message: Option<string>)  // a non-null object, with the numeric `code` and the `message` (own or inherited) it has, if any
    | Primitive(shown: string)                                  // null or a non-object, with what `String(value)` gives

  /** The rate-limit test of the search step: an object whose `code` is 429. */
  predicate IsRateLimit(e: ErrorValue) {
    e.ErrorObject? && e.code == Some(429)
  }

  /** The message-extraction rule used in every `catch` of index.ts: the
      `message` property, own or inherited, of an object that has one, `String(value)` otherwise
      (which is "[object Object]" for a plain object). */
  function ErrorMessage(e: ErrorValue): string {
    match e
    case ErrorObject(_, Some(m)) => m
    case ErrorObject(_, None) => "[object Object]"
    case Primitive(shown) => shown
  }

  /** A post as the search returns it. */
  datatype Post = Post(id: string, text: string, createdAt: Option<string>)

  /** One call of the post search, including the iteration over its pages:
      either every post it yields, in order, or the value it throws. */
  datatype SearchOutcome =
    | Found(posts: seq<Post>)
    | SearchThrew(error: ErrorValue)

  /** One chat-completion call: the `content` of its first choice (`None`
      when there is no first choice, message or content), or the value it throws. */
  datatype Completion =
    | Answered(content: Option<string>)
    | CompletionThrew(error: ErrorValue)

  /** One reply-posting call. */
  datatype ReplyOutcome =
    | Posted
    | ReplyThrew(error: ErrorValue)
}
