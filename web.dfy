/**
 * What the hosting platform hands to a request handler: the request's
 * arguments and addresses, and the signed-in user.
 */
module Web {

  /**
   * A request. `args` holds the query and form arguments by name (one value
   * each); `path`, `url` and `remoteAddr` are the request path, the full
   * request URL and the caller's IP address.
   */
  datatype Request = Request(args: map<string, string>, path: string, url: string, remoteAddr: string)
  {
    /** `request.get(name)`: the argument, or the empty string when absent. */
    function Get(name: string): (v: string)
      ensures name !in args ==> v == ""
      ensures name in args ==> v == args[name]
    {
      if name in args then args[name] else ""
    }

    /** `name in request.arguments()`. */
    predicate Has(name: string)
    {
      name in args
    }
  }

  /** The signed-in user as the identity service reports it. */
  datatype User = User(email: string, isAdmin: bool)

  /** A message handed to the mail service. */
  datatype Mail = Mail(sender: string, to: string, subject: string, body: string)
}
