/**
 * JSON values and the parts of JSON text the streaming code relies on:
 * the body of a string literal (section 7 of RFC 8259) and the way
 * JavaScript turns a parsed value back into a string or a truth value.
 */
module Json {
  import opened Wrappers

  /** A value produced by `JSON.parse`. Numbers are integers in this model. */
  datatype Json =
    | JNull
    | JBool(b: bool)
    | JNum(n: int)
    | JStr(s: string)
    | JArr(items: seq<Json>)
    | JObj(fields: seq<(string, Json)>)

  /** The character a two-character escape `\c` stands for (`\u` is not decoded here). */
  function UnescapeChar(c: char): Option<char> {
    match c
    case '"' => Some('"')
    case '\\' => Some('\\')
    case '/' => Some('/')
    case 'b' => Some('\U{0008}')
    case 'f' => Some('\U{000C}')
    case 'n' => Some('\n')
    case 'r' => Some('\r')
    case 't' => Some('\t')
    case _ => None
  }

  /**
   * Decodes the body of a JSON string literal (the text after its opening
   * quote) up to and including the closing quote. Returns the decoded
   * characters and the text after the closing quote; `None` when the literal
   * is unterminated, holds a raw control character or a bad escape.
   */
  function DecodeStringBody(s: string): (r: Option<(string, string)>)
    ensures r.Some? ==> |r.value.1| < |s|
    decreases |s|
  {
    if |s| == 0 then None
    else if s[0] == '"' then Some(("", s[1..]))
    else if s[0] == '\\' then
      if |s| < 2 then None
      else match UnescapeChar(s[1])
        case None => None
        case Some(c) =>
          match DecodeStringBody(s[2..])
          case None => None
          case Some(p) => Some(([c] + p.0, p.1))
    else if s[0] < ' ' then None
    else
      match DecodeStringBody(s[1..])
      case None => None
      case Some(p) => Some(([s[0]] + p.0, p.1))
  }

  /** Text that may stand between JSON string quotes unchanged: no quote, no backslash, no control character. */
  predicate IsPlainText(t: string) {
    forall i :: 0 <= i < |t| ==> t[i] != '"' && t[i] != '\\' && t[i] >= ' '
  }

  /** Plain text followed by a quote decodes to itself; the rest is left over. */
  lemma {:induction false} DecodePlainText(t: string, rest: string)
    requires IsPlainText(t)
    ensures DecodeStringBody(t + "\"" + rest) == Some((t, rest))
  {
    if t == [] {
      assert t + "\"" + rest == ['"'] + rest;
    } else {
      assert (t + "\"" + rest)[1..] == t[1..] + "\"" + rest;
      DecodePlainText(t[1..], rest);
      assert [t[0]] + t[1..] == t;
    }
  }

  /** JavaScript truthiness of a parsed value. */
  predicate Truthy(j: Json) {
    match j
    case JNull => false
    case JBool(b) => b
    case JNum(n) => n != 0
    case JStr(s) => s != ""
    case JArr(_) => true
    case JObj(_) => true
  }

  /** Decimal digits of a natural number, most significant first. */
  function NatToString(n: nat): (r: string)
    ensures |r| > 0
    ensures forall i :: 0 <= i < |r| ==> '0' <= r[i] <= '9'
    decreases n
  {
    var d := [(n % 10) as char + '0'];
    if n < 10 then d else NatToString(n / 10) + d
  }

  /** `String(n)` for an integer. */
  function IntToString(n: int): string {
    if n < 0 then "-" + NatToString(-n) else NatToString(n)
  }

  /**
   * `String(j)`: what JavaScript makes of a parsed value when a string is
   * expected (as `JSON.parse` does with its argument). An object becomes
   * `[object Object]`; an array joins its elements with commas, `null`
   * elements becoming empty.
   */
  function ToJsString(j: Json): string
    decreases j, 1
  {
    match j
    case JNull => "null"
    case JBool(b) => if b then "true" else "false"
    case JNum(n) => IntToString(n)
    case JStr(s) => s
    case JArr(items) => JoinArray(j, items)
    case JObj(_) => "[object Object]"
  }

  function JoinArray(ghost parent: Json, items: seq<Json>): string
    requires forall i :: 0 <= i < |items| ==> items[i] < parent
    decreases parent, 0, |items|
  {
    if items == [] then ""
    else
      var head := if items[0].JNull? then "" else ToJsString(items[0]);
      if |items| == 1 then head else head + "," + JoinArray(parent, items[1..])
  }

  /** The value of property `key` of a parsed object: the last occurrence wins, as in `JSON.parse`. */
  function Property(fields: seq<(string, Json)>, key: string): (r: Option<Json>)
    ensures r.Some? <==> exists i :: 0 <= i < |fields| && fields[i].0 == key
  {
    if fields == [] then None
    else match Property(fields[..|fields| - 1], key)
      case r =>
        if fields[|fields| - 1].0 == key then Some(fields[|fields| - 1].1) else r
  }
}
