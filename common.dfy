/** Small shared vocabulary: optional values, results, and the JavaScript
    notions of "truthy" that the client's guards rely on. */
module Common {

  datatype Option<+T> = None | Some(value: T)

  datatype Result<+T, +E> = Ok(value: T) | Err(error: E)

  /** An optional string (`string | undefined`) is truthy when it is present
      and not empty: `if (token)`, `if (response.error)`, `if (!server_url)`. */
  predicate Truthy(s: Option<string>)
  {
    s.Some? && s.value != ""
  }

  /** What `localStorage.getItem(key)` returns, together with what
      `JSON.parse` makes of it (None when parsing throws). */
  datatype Stored<+T> = Missing | Entry(raw: string, parsed: Option<T>)
  {
    /** `if (!userData)`: a missing entry and an empty string are both falsy. */
    predicate Present()
    {
      Entry? && raw != ""
    }
  }

  /** The route every page sends a visitor without a stored session to. */
  const SignInRoute: string := "/auth/signin"

  /** The user record cached under the key 'user' after sign-in. */
  datatype User = User(id: string, email: string, name: Option<string>)
}
