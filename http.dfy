/** What the request handlers answer besides their payloads. */
module Http {
  /** An error response: HTTP status and message. */
  datatype Failure = Failure(code: int, message: string)

  /** An exception the handler does not catch: Flask answers 500. */
  const Crash := Failure(500, "Internal Server Error")
}
