/**
 * The slice of the web framework's request and response objects that the
 * views read and build. A request carries its HTTP method (`verb`) and its POST data; a
 * response carries a status code, the headers the code sets, and a body that
 * is either empty or an abstract rendered page of type `B`.
 */
module Http {
  type PostData = map<string, string>

  datatype Request = Request(verb: string, post: PostData)

  datatype Body<B> = Empty | Rendered(page: B)

  datatype Response<B> = Response(status: int, headers: map<string, string>, body: Body<B>)
}
