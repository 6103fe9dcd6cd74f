/** Helpers shared by the backend and frontend models: optional values, the
    way a Python call either returns or raises, the shape of an HTTP reply
    from a FastAPI route, and the few string operations the code relies on
    (substring test, ASCII lower/title case, `split('.')[-1]`). */
module Common {

  datatype Option<+T> = None | Some(value: T)

  /** A Python call that either returns a value or raises an exception
      carrying a message. */
  datatype Result<+T> = Ok(value: T) | Err(error: string)

  /** What a FastAPI route produces: a JSON body, an `HTTPException`
      (status and detail), or an exception the route does not catch (which
      the framework turns into a 500 response). */
  datatype Reply<+T> = Body(value: T) | HttpError(status: int, detail: string) | Unhandled(error: string)

  type byte = x: int | 0 <= x < 256

  /** The dict a cloud provider returns for a server it created: the keys
      `provider_id`, `ip_address`, `username`, `password` and `status`. */
  datatype ServerDetails = ServerDetails(
    providerId: string, ipAddress: string, username: string, password: string, status: string)

  /** Python truthiness of an optional string: `None` and `""` are falsy.
      The same test is JavaScript's `!value` on a string-or-null. */
  predicate Truthy(s: Option<string>)
  {
    s.Some? && s.value != ""
  }

  /** Python's `s or default` (JavaScript's `s || default`) for an optional string. */
  function OrElse(s: Option<string>, default: string): (r: string)
    ensures Truthy(s) ==> r == s.value
    ensures !Truthy(s) ==> r == default
  {
    if Truthy(s) then s.value else default
  }

  /** Python's `sub in s` on strings. */
  predicate Contains(s: string, sub: string)
  {
    exists i :: 0 <= i <= |s| - |sub| && OccursAt(s, sub, i)
  }

  /** `sub` is found in `s` starting at index `i`. */
  predicate OccursAt(s: string, sub: string, i: int)
  {
    0 <= i <= |s| - |sub| && s[i..i + |sub|] == sub
  }

  predicate IsUpper(c: char) { 'A' <= c <= 'Z' }
  predicate IsLower(c: char) { 'a' <= c <= 'z' }
  predicate IsCased(c: char) { IsUpper(c) || IsLower(c) }

  function ToLowerChar(c: char): (r: char)
    ensures IsCased(r) <==> IsCased(c)
    ensures !IsUpper(r)
  {
    if IsUpper(c) then (c as int + 32) as char else c
  }

  function ToUpperChar(c: char): (r: char)
    ensures IsCased(r) <==> IsCased(c)
    ensures !IsLower(r)
  {
    if IsLower(c) then (c as int - 32) as char else c
  }

  /** `str.lower()` restricted to the ASCII letters. */
  function Lower(s: string): (r: string)
    ensures |r| == |s|
    ensures forall k :: 0 <= k < |s| ==> r[k] == ToLowerChar(s[k])
  {
    if s == [] then [] else [ToLowerChar(s[0])] + Lower(s[1..])
  }

  /** Lowering twice is lowering once: detection on a lowered plan string
      does not depend on the case the caller used. */
  lemma LowerIdempotent(s: string)
    ensures Lower(Lower(s)) == Lower(s)
  {
    assert forall k :: 0 <= k < |s| ==> ToLowerChar(ToLowerChar(s[k])) == ToLowerChar(s[k]);
  }

  /** A string with no upper-case letter is its own lower case. */
  lemma LowerOfNoUpper(s: string)
    requires forall k :: 0 <= k < |s| ==> !IsUpper(s[k])
    ensures Lower(s) == s
  {
  }

  /** `str.title()` restricted to the ASCII letters: a letter that follows a
      letter is lowered, any other letter is raised, and every other
      character is kept. `afterCased` says whether the character before `s`
      was a letter. */
  function TitleFrom(s: string, afterCased: bool): (r: string)
    ensures |r| == |s|
  {
    if s == [] then []
    else
      var c := if afterCased then ToLowerChar(s[0]) else ToUpperChar(s[0]);
      [c] + TitleFrom(s[1..], IsCased(s[0]))
  }

  function Title(s: string): (r: string)
    ensures |r| == |s|
  {
    TitleFrom(s, false)
  }

  lemma {:induction false} TitleFromIdempotent(s: string, afterCased: bool)
    ensures TitleFrom(TitleFrom(s, afterCased), afterCased) == TitleFrom(s, afterCased)
  {
    if s != [] {
      var t := TitleFrom(s, afterCased);
      assert t[1..] == TitleFrom(s[1..], IsCased(s[0]));
      assert IsCased(t[0]) == IsCased(s[0]);
      TitleFromIdempotent(s[1..], IsCased(s[0]));
    }
  }

  /** Title-casing is idempotent: a title-cased word is its own title case. */
  lemma TitleIdempotent(s: string)
    ensures Title(Title(s)) == Title(s)
  {
    TitleFromIdempotent(s, false);
  }

  /** Python's `s.split(sep)[-1]`: the part of `s` after its last `sep`, or
      all of `s` when it holds no `sep`. */
  function LastSegment(s: string, sep: char): (r: string)
    ensures |r| <= |s| && r == s[|s| - |r|..]
    ensures sep !in r
    ensures |r| < |s| ==> s[|s| - |r| - 1] == sep
  {
    if s == [] then []
    else if s[|s| - 1] == sep then []
    else LastSegment(s[..|s| - 1], sep) + [s[|s| - 1]]
  }

  /** A string without the separator is its own last segment. */
  lemma {:induction false} LastSegmentNoSep(s: string, sep: char)
    requires sep !in s
    ensures LastSegment(s, sep) == s
  {
    if s != [] {
      assert sep !in s[..|s| - 1];
      LastSegmentNoSep(s[..|s| - 1], sep);
    }
  }
}
