/** Values shared by every part of the model: optional values, the shape of a
    thrown JavaScript error as the dashboard inspects it, and the few string
    operations the source performs (`toLowerCase`, `includes`, `startsWith`,
    `replace` with a string pattern, `substring`). */
module Common {

  datatype Option<+T> = None | Some(value: T) {
    /** `x ?? d` / `x || d` for an optional value. */
    function GetOr(default: T): T {
      match this
      case Some(v) => v
      case None => default
    }
  }

  /** A thrown error as the code reads it. A field that is `undefined`, `null`
      or `''` is `""`; an error without an HTTP response has status 0.
      - responseErrorMessage: `error.response.data.error.message`
      - responseMessage:      `error.response.data.message`
      - message:              `error.message` */
  datatype JsError = JsError(status: int, responseErrorMessage: string, responseMessage: string, message: string)

  /** `throw new Error(message)`: no response attached. */
  function Thrown(message: string): JsError {
    JsError(0, "", "", message)
  }

  /** A settled promise: its value, or the error it rejected with. */
  datatype Result<+T> = Ok(value: T) | Err(error: JsError)

  /** What the network answered to one request put on the wire. */
  datatype Reply<+T> = Delivered(data: T) | Failed(error: JsError)

  function ToResult<T>(r: Reply<T>): Result<T> {
    match r
    case Delivered(d) => Ok(d)
    case Failed(e) => Err(e)
  }

  /** `a || b` on two strings. */
  function Or(a: string, b: string): string {
    if a != "" then a else b
  }

  /** The message every page and the auth provider show for a caught error:
      `error.response?.data?.message || error.message || fallback`. */
  function Describe(e: JsError, fallback: string): (r: string)
    ensures e.responseMessage != "" ==> r == e.responseMessage
    ensures e.responseMessage == "" && e.message != "" ==> r == e.message
    ensures e.responseMessage == "" && e.message == "" ==> r == fallback
    ensures fallback != "" ==> r != ""
  {
    Or(e.responseMessage, Or(e.message, fallback))
  }

  /** A stand-in for the message of the TypeError raised by reading a
      property of `undefined` (engines word it differently and add the
      property name); the pages show it when a successful reply lacks its data. */
  const ReadOfUndefined := "Cannot read properties of undefined"

  /** `toLowerCase`, on the ASCII letters. */
  function LowerChar(c: char): char {
    if 'A' <= c <= 'Z' then (c as int + 32) as char else c
  }

  function ToLower(s: string): (r: string)
    ensures |r| == |s|
    ensures forall i :: 0 <= i < |s| ==> r[i] == LowerChar(s[i])
  {
    seq(|s|, i requires 0 <= i < |s| => LowerChar(s[i]))
  }

  lemma ToLowerIdempotent(s: string)
    ensures ToLower(ToLower(s)) == ToLower(s)
  {
    assert forall i :: 0 <= i < |s| ==> LowerChar(LowerChar(s[i])) == LowerChar(s[i]);
  }

  /** `pat` occurs in `s` starting at index `i`. */
  predicate MatchAt(s: string, pat: string, i: int) {
    0 <= i && i + |pat| <= |s| && s[i..i + |pat|] == pat
  }

  /** `s.indexOf(pat)`: the first index where `pat` occurs, if any. */
  function IndexOf(s: string, pat: string): (r: Option<nat>)
    ensures r.Some? ==> MatchAt(s, pat, r.value)
    ensures r.Some? ==> forall j :: 0 <= j < r.value ==> !MatchAt(s, pat, j)
    ensures r.None? ==> forall j :: !MatchAt(s, pat, j)
    decreases |s|
  {
    if |s| < |pat| then None
    else if s[..|pat|] == pat then Some(0)
    else
      var rest := IndexOf(s[1..], pat);
      assert forall j :: 1 <= j ==> (MatchAt(s, pat, j) <==> MatchAt(s[1..], pat, j - 1)) by {
        forall j | 1 <= j ensures MatchAt(s, pat, j) <==> MatchAt(s[1..], pat, j - 1) {
          if j + |pat| <= |s| {
            assert s[1..][j - 1..j - 1 + |pat|] == s[j..j + |pat|];
          }
        }
      }
      assert !MatchAt(s, pat, 0);
      match rest
      case None => None
      case Some(k) => Some(k + 1)
  }

  /** The first match determines `indexOf`. */
  lemma IndexOfFirst(s: string, pat: string, i: nat)
    requires MatchAt(s, pat, i)
    requires forall j :: 0 <= j < i ==> !MatchAt(s, pat, j)
    ensures IndexOf(s, pat) == Some(i)
  {
  }

  /** `s.includes(pat)`. */
  predicate Contains(s: string, pat: string) {
    IndexOf(s, pat).Some?
  }

  lemma ContainsAt(s: string, pat: string, i: int)
    requires MatchAt(s, pat, i)
    ensures Contains(s, pat)
  {
  }

  /** `s.startsWith(p)`. */
  predicate StartsWith(s: string, p: string) {
    |p| <= |s| && s[..|p|] == p
  }

  predicate EndsWith(s: string, p: string) {
    |p| <= |s| && s[|s| - |p|..] == p
  }

  /** `s.replace(pat, rep)` with a string pattern: only the FIRST occurrence
      is replaced. */
  function ReplaceFirst(s: string, pat: string, rep: string): string {
    match IndexOf(s, pat)
    case None => s
    case Some(i) => s[..i] + rep + s[i + |pat|..]
  }

  /** Replacing the first occurrence cuts exactly that occurrence out. */
  lemma ReplaceFirstAt(p: string, pat: string, q: string, rep: string)
    requires IndexOf(p + pat + q, pat) == Some(|p|)
    ensures ReplaceFirst(p + pat + q, pat, rep) == p + rep + q
  {
    var s := p + pat + q;
    assert s[..|p|] == p;
    assert s[|p| + |pat|..] == q;
  }

  /** `s.substring(0, n)`. */
  function Prefix(s: string, n: nat): (r: string)
    ensures |r| == if |s| < n then |s| else n
    ensures r <= s
  {
    if |s| < n then s else s[..n]
  }
}
