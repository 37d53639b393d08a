/** Option and Result, the two failure-carrying datatypes the model uses for
    Python's `None` and for raised exceptions, and the exceptions themselves. */
module Wrappers {

  datatype Option<+T> = None | Some(value: T) {
    function GetOr(default: T): T {
      match this
      case Some(v) => v
      case None => default
    }
  }

  /** `Err` carries the message a Python exception would have carried. */
  datatype Result<+T, +E> = Ok(value: T) | Err(error: E)

  /** The Python exceptions the backend raises or catches. */
  datatype Exc =
    | KeyError(key: string)
    | TypeError(msg: string)
    | AttributeError(msg: string)
    | ValueError(msg: string)
  {
    /** `str(e)`: a `KeyError` prints the `repr` of its key, the others
        their message. */
    function Message(): string {
      match this
      case KeyError(key) => StrRepr(key)
      case TypeError(msg) => msg
      case AttributeError(msg) => msg
      case ValueError(msg) => msg
    }
  }

  /** The quote `repr` puts around a string: a double quote when the text
      holds a single quote and no double quote, a single quote otherwise. */
  function QuoteFor(s: string): (q: char)
    ensures q == '\'' || q == '"'
    ensures q == '"' <==> '\'' in s && '"' !in s
  {
    if '\'' in s && '"' !in s then '"' else '\''
  }

  /** A character as `repr` writes it inside quotes `q`: backslash, the
      quote itself, newline, carriage return and tab get a backslash
      escape, the other ASCII control characters a `\xNN` escape. */
  function EscapeChar(c: char, q: char): (r: string)
    ensures |r| >= 1
    ensures c != '\\' && c != q && ' ' <= c && c as int != 127 ==> r == [c]
  {
    if c == '\\' then "\\\\"
    else if c == q then ['\\', q]
    else if c == '\n' then "\\n"
    else if c == '\r' then "\\r"
    else if c == '\t' then "\\t"
    else if c < ' ' || c as int == 127 then "\\x" + [HexDigit(c as int / 16), HexDigit(c as int % 16)]
    else [c]
  }

  function HexDigit(d: int): char
    requires 0 <= d < 16
  {
    "0123456789abcdef"[d]
  }

  function Escaped(s: string, q: char): (r: string)
    ensures |r| >= |s|
  {
    if s == [] then "" else EscapeChar(s[0], q) + Escaped(s[1..], q)
  }

  /** `repr(s)` for a string `s`. */
  function StrRepr(s: string): (r: string)
    ensures |r| >= |s| + 2 && r[0] == QuoteFor(s) && r[|r| - 1] == QuoteFor(s)
  {
    [QuoteFor(s)] + Escaped(s, QuoteFor(s)) + [QuoteFor(s)]
  }

  /** Text without backslashes, control characters or the quote passes
      through the escaping unchanged. */
  lemma {:induction false} EscapedPlain(s: string, q: char)
    requires forall i :: 0 <= i < |s| ==> s[i] != '\\' && s[i] != q && ' ' <= s[i] && s[i] as int != 127
    ensures Escaped(s, q) == s
  {
    if s != [] {
      EscapedPlain(s[1..], q);
    }
  }

  /** Plain text is written between single quotes, and text whose only
      quotes are single quotes between double quotes, both unescaped. */
  lemma {:induction false} PlainRepr(s: string)
    requires forall i :: 0 <= i < |s| ==> s[i] != '\\' && s[i] != '"' && ' ' <= s[i] && s[i] as int != 127
    ensures '\'' !in s ==> StrRepr(s) == "'" + s + "'"
    ensures '\'' in s ==> StrRepr(s) == "\"" + s + "\""
  {
    EscapedPlain(s, QuoteFor(s));
  }

  /** A FastAPI `HTTPException`: the status code and the detail message. */
  datatype HttpError = HttpError(status: nat, detail: string)
}
