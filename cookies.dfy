/**
 * The request's cookie store as Next.js route handlers see it through
 * `cookies()`: one mutable name-to-cookie map per request. A cookie written or
 * deleted earlier in the request is what later reads see.
 */
module Cookies {
  import opened Wrappers

  datatype SameSite = Lax | Strict

  /** The attributes a handler passes to `cookies().set`. */
  datatype CookieOptions = CookieOptions(
    httpOnly: bool,
    secure: bool,
    maxAge: int,
    path: string,
    sameSite: Option<SameSite>)

  /** A cookie sent by the browser (no attributes), or one set by this request. */
  datatype Cookie = FromRequest(value: string) | Issued(value: string, options: CookieOptions)

  type Jar = map<string, Cookie>

  /** `cookies().get(name)?.value`. */
  function ValueOf(jar: Jar, name: string): Option<string> {
    if name in jar then Some(jar[name].value) else None
  }

  /** The two jars agree on every cookie except `name`. */
  ghost predicate SameExcept(a: Jar, b: Jar, name: string) {
    forall n :: n != name ==> (n in a <==> n in b) && (n in a ==> a[n] == b[n])
  }

  lemma SameExceptTransitive(a: Jar, b: Jar, c: Jar, name: string)
    requires SameExcept(a, b, name) && SameExcept(b, c, name)
    ensures SameExcept(a, c, name)
  {
  }

  class CookieJar {
    var entries: Jar

    constructor (initial: Jar)
      ensures entries == initial
    {
      entries := initial;
    }

    function Get(name: string): Option<string>
      reads this
    {
      ValueOf(entries, name)
    }

    method Set(name: string, value: string, options: CookieOptions)
      modifies this
      ensures entries == old(entries)[name := Issued(value, options)]
    {
      entries := entries[name := Issued(value, options)];
    }

    method Delete(name: string)
      modifies this
      ensures entries == old(entries) - {name}
    {
      entries := entries - {name};
    }
  }
}
