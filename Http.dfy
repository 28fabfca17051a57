/** The HTTP vocabulary the client uses: header maps, the requests it sends, the replies it
    receives, and the two kinds of error it raises. The transport itself is not modelled: a
    reply is whatever the server answered. */
module Http {

  /** A header mapping, as the Python dictionaries passed to `requests`. */
  type Headers = map<string, string>

  datatype Verb = Get | Post | Patch | Delete

  /** The JSON body of a request: none, a list of file records, one file record, or the
      object `{"fileids": [...]}`. */
  datatype Body<F> = NoBody | FileList(files: seq<F>) | OneFile(file: F) | FileIds(fileids: seq<string>)

  datatype Request<F> = Request(verb: Verb, url: string, headers: Headers, body: Body<F>)

  /** What the server answered: the status code, the body as text, and the body decoded. */
  datatype Reply<B> = Reply(status: int, text: string, body: B)

  /** `RuntimeError(r.text)`, raised by hand, and the `HTTPError` that `raise_for_status`
      raises, which carries the status code. */
  datatype Error = RuntimeError(message: string) | HttpError(status: int)

  /** The statuses for which `raise_for_status` raises and `ok` is false: client errors
      (4xx) and server errors (5xx). */
  predicate IsErrorStatus(status: int)
  {
    400 <= status < 600
  }

  /** A status is an error exactly when its class, the hundreds digit, is 4 (client error)
      or 5 (server error). */
  lemma ErrorStatusIsClientOrServerClass(status: int)
    ensures IsErrorStatus(status) <==> status / 100 == 4 || status / 100 == 5
  {
  }
}
