/** Values shared by every screen: an optional value, the abstract HTTP request a handler
    emits instead of calling `fetch`, and the `{username, password}` body two screens post. */
module Requests {

  datatype Option<+T> = None | Some(value: T)

  /** The one request a handler sends, or `NoRequest` when it sends none. Paths are relative
      to the fixed API origin; `B` is the type of the JSON body. */
  datatype Request<B> =
    | Get(path: string)
    | Post(path: string, body: B)
    | Put(path: string, body: B)
    | Delete(path: string)
    | NoRequest

  /** The JSON body `{ username, password }`. */
  datatype Credentials = Credentials(username: string, password: string)

  const SignupPath := "/api/signup"
}
