/** contract/envelope.go's canonical form: how JSON values print, and how they read back. The
    reader follows sections 2 to 7 of RFC 8259, as encoding/json does. */
module CanonicalJson {
  import opened Basics

  // An object's members are kept in the order something listed them. A Go map lists its keys
  // in any order, each once.
  datatype Json =
    | Null
    | Bool(b: bool)
    | Num(text: string)
    | Str(s: string)
    | Arr(items: seq<Json>)
    | Obj(members: seq<Member>)

  datatype Member = Member(key: string, value: Json)

  // ---- numbers ------------------------------------------------------------------------------

  predicate IsDigit(c: char) { '0' <= c <= '9' }

  predicate NumberChar(c: char) {
    IsDigit(c) || c == '-' || c == '+' || c == '.' || c == 'e' || c == 'E'
  }

  function SkipDigits(t: string): string {
    if t != "" && IsDigit(t[0]) then SkipDigits(t[1..]) else t
  }

  predicate ValidExponent(t: string) {
    t == ""
    || ((t[0] == 'e' || t[0] == 'E')
        && var u := if |t| > 1 && (t[1] == '+' || t[1] == '-') then t[2..] else t[1..];
           u != "" && SkipDigits(u) == "")
  }

  // Section 6: minus, int, frac, exp.
  predicate ValidNumber(t: string) {
    && t != "" && (forall c :: c in t ==> NumberChar(c))
    && var u := if t[0] == '-' then t[1..] else t;
       u != "" && IsDigit(u[0])
       && var v := if u[0] == '0' then u[1..] else SkipDigits(u);
          if v != "" && v[0] == '.' then |v| > 1 && IsDigit(v[1]) && ValidExponent(SkipDigits(v[1..]))
          else ValidExponent(v)
  }

  // Parsing and formatting one 64-bit float, which fails out of range.
  type Floats = string -> Option<string>

  function NormalizeNumber(t: string, floats: Floats): Option<string> {
    if forall c :: c in t ==> c != '.' && c != 'e' && c != 'E' then Some(t) else floats(t)
  }

  /** What formatting a float promises: a number, which formats as itself. */
  ghost predicate LawfulFloats(floats: Floats) {
    forall t :: ValidNumber(t) && floats(t).Some? ==>
      ValidNumber(floats(t).value) && NormalizeNumber(floats(t).value, floats) == floats(t)
  }

  // ---- strings ------------------------------------------------------------------------------

  function HexDigit(n: int): char
    requires 0 <= n < 16
  {
    "0123456789abcdef"[n]
  }

  function UnicodeEscape(c: int): string
    requires 0 <= c < 0x10000
  {
    ['\\', 'u', HexDigit(c / 4096), HexDigit(c / 256 % 16), HexDigit(c / 16 % 16), HexDigit(c % 16)]
  }

  // json.Marshal's escapes, with its default protection of HTML.
  function EscapeChar(c: char): string {
    if c == '"' then "\\\""
    else if c == '\\' then "\\\\"
    else if c == '\n' then "\\n"
    else if c == '\r' then "\\r"
    else if c == '\t' then "\\t"
    else if c == '\U{8}' then "\\b"
    else if c == '\U{c}' then "\\f"
    else if c < ' ' || c == '<' || c == '>' || c == '&' || c == '\U{2028}' || c == '\U{2029}' then
      UnicodeEscape(c as int)
    else [c]
  }

  /** The characters of s, escaped, and then k. */
  function PrintChars(s: string, k: string): string {
    if s == "" then k else EscapeChar(s[0]) + PrintChars(s[1..], k)
  }

  function PrintString(s: string, k: string): string {
    "\"" + PrintChars(s, "\"" + k)
  }

  // ---- values -------------------------------------------------------------------------------

  /** The text of v as its members are listed, and then k. */
  function Print(v: Json, k: string): string
    decreases v, 1
  {
    match v
    case Null => "null" + k
    case Bool(b) => (if b then "true" else "false") + k
    case Num(text) => text + k
    case Str(s) => PrintString(s, k)
    case Arr(items) => "[" + PrintItems(items, "]" + k)
    case Obj(members) => "{" + PrintMembers(members, "}" + k)
  }

  function PrintItems(items: seq<Json>, k: string): string
    decreases items, 0
  {
    if |items| == 0 then k
    else Print(items[0], if |items| == 1 then k else "," + PrintItems(items[1..], k))
  }

  function PrintMembers(members: seq<Member>, k: string): string
    decreases members, 0
  {
    if |members| == 0 then k
    else
      PrintString(members[0].key,
                  ":" + Print(members[0].value, if |members| == 1 then k else "," + PrintMembers(members[1..], k)))
  }

  function InsertMember(m: Member, sorted: seq<Member>): seq<Member> {
    if |sorted| == 0 || Less(m.key, sorted[0].key) then [m] + sorted
    else [sorted[0]] + InsertMember(m, sorted[1..])
  }

  function SortMembers(members: seq<Member>): seq<Member> {
    if |members| == 0 then [] else InsertMember(members[0], SortMembers(members[1..]))
  }

  /** Keys sorted at every depth and numbers normalized; arrays keep their order. */
  function Canon(v: Json, floats: Floats): Json
    decreases v, 1
  {
    match v
    case Num(text) => Num(NormalizeNumber(text, floats).GetOr(text))
    case Arr(items) => Arr(CanonItems(items, floats))
    case Obj(members) => Obj(SortMembers(CanonMembers(members, floats)))
    case _ => v
  }

  function CanonItems(items: seq<Json>, floats: Floats): (r: seq<Json>)
    ensures |r| == |items|
    decreases items, 0
  {
    if |items| == 0 then [] else [Canon(items[0], floats)] + CanonItems(items[1..], floats)
  }

  function CanonMembers(members: seq<Member>, floats: Floats): (r: seq<Member>)
    ensures |r| == |members|
    decreases members, 0
  {
    if |members| == 0 then []
    else [Member(members[0].key, Canon(members[0].value, floats))] + CanonMembers(members[1..], floats)
  }

  /** The canonical bytes of a value. */
  function Encode(v: Json, floats: Floats): string {
    Print(Canon(v, floats), "")
  }

  function Keys(members: seq<Member>): (keys: seq<string>)
    ensures |keys| == |members| && forall i :: 0 <= i < |members| ==> keys[i] == members[i].key
  {
    seq(|members|, i requires 0 <= i < |members| => members[i].key)
  }

  /** A value as a decoder yields it: proper numbers, and objects without repeated keys. */
  ghost predicate WellFormed(v: Json)
    decreases v
  {
    match v
    case Num(text) => ValidNumber(text)
    case Arr(items) => forall i :: 0 <= i < |items| ==> WellFormed(items[i])
    case Obj(members) =>
      NoRepeats(Keys(members)) && forall i :: 0 <= i < |members| ==> WellFormed(members[i].value)
    case _ => true
  }

  /** Every number has a float in range, so encodeCanonical reports no error. */
  predicate Printable(v: Json, floats: Floats)
    decreases v
  {
    match v
    case Num(text) => NormalizeNumber(text, floats).Some?
    case Arr(items) => forall i :: 0 <= i < |items| ==> Printable(items[i], floats)
    case Obj(members) => forall i :: 0 <= i < |members| ==> Printable(members[i].value, floats)
    case _ => true
  }

  /** Already canonical. */
  ghost predicate Tidy(v: Json, floats: Floats)
    decreases v
  {
    match v
    case Num(text) => ValidNumber(text) && NormalizeNumber(text, floats) == Some(text)
    case Arr(items) => forall i :: 0 <= i < |items| ==> Tidy(items[i], floats)
    case Obj(members) =>
      StrictlySorted(Keys(members)) && forall i :: 0 <= i < |members| ==> Tidy(members[i].value, floats)
    case _ => true
  }

  // ---- reading ------------------------------------------------------------------------------

  datatype Parsed<T> = Parsed(value: T, rest: string)

  predicate IsWhite(c: char) { c == ' ' || c == '\t' || c == '\n' || c == '\r' }

  function SkipWhite(t: string): (r: string)
    ensures |r| <= |t|
  {
    if t != "" && IsWhite(t[0]) then SkipWhite(t[1..]) else t
  }

  function HexValue(c: char): Option<int> {
    if '0' <= c <= '9' then Some(c as int - '0' as int)
    else if 'a' <= c <= 'f' then Some(c as int - 'a' as int + 10)
    else if 'A' <= c <= 'F' then Some(c as int - 'A' as int + 10)
    else None
  }

  // The four hexadecimal digits of a \u escape that starts t, as a number.
  function ReadHex(t: string): Option<int> {
    if |t| < 6 || t[0] != '\\' || t[1] != 'u' then None
    else
      var a, b, c, d := HexValue(t[2]), HexValue(t[3]), HexValue(t[4]), HexValue(t[5]);
      if a.None? || b.None? || c.None? || d.None? then None
      else Some(a.value * 4096 + b.value * 256 + c.value * 16 + d.value)
  }

  // Section 7: one character of a string, escaped or not. A lone surrogate reads as U+FFFD.
  function ReadChar(t: string): (r: Option<Parsed<char>>)
    requires t != ""
    ensures r.Some? ==> |r.value.rest| < |t|
  {
    if t[0] < ' ' then None
    else if t[0] != '\\' then Some(Parsed(t[0], t[1..]))
    else if |t| < 2 then None
    else match t[1]
      case '"' => Some(Parsed('"', t[2..]))
      case '\\' => Some(Parsed('\\', t[2..]))
      case '/' => Some(Parsed('/', t[2..]))
      case 'b' => Some(Parsed('\U{8}', t[2..]))
      case 'f' => Some(Parsed('\U{c}', t[2..]))
      case 'n' => Some(Parsed('\n', t[2..]))
      case 'r' => Some(Parsed('\r', t[2..]))
      case 't' => Some(Parsed('\t', t[2..]))
      case 'u' =>
        var code := ReadHex(t);
        if code.None? then None
        else if 0 <= code.value < 0xD800 || 0xE000 <= code.value < 0x10000 then
          Some(Parsed(code.value as char, t[6..]))
        else
          var low := ReadHex(t[6..]);
          if 0xD800 <= code.value < 0xDC00 && low.Some? && 0xDC00 <= low.value < 0xE000 then
            Some(Parsed((0x10000 + (code.value - 0xD800) * 0x400 + (low.value - 0xDC00)) as char, t[12..]))
          else Some(Parsed('\U{FFFD}', t[6..]))
      case _ => None
  }

  // The rest of a string after its opening quotation mark.
  function ReadChars(t: string): (r: Option<Parsed<string>>)
    ensures r.Some? ==> |r.value.rest| < |t|
    decreases |t|
  {
    if t == "" then None
    else if t[0] == '"' then Some(Parsed("", t[1..]))
    else
      var first := ReadChar(t);
      if first.None? then None
      else
        var others := ReadChars(first.value.rest);
        if others.None? then None else Some(Parsed([first.value.value] + others.value.value, others.value.rest))
  }

  function NumberRun(t: string): (n: nat)
    ensures n <= |t|
  {
    if t != "" && NumberChar(t[0]) then 1 + NumberRun(t[1..]) else 0
  }

  function ReadLiteral(t: string, word: string, v: Json): (r: Option<Parsed<Json>>)
    requires word != ""
    ensures r.Some? ==> |r.value.rest| < |t|
  {
    if word <= t then Some(Parsed(v, t[|word|..])) else None
  }

  // Of members with one key a Go map keeps the last.
  function PutMember(m: Member, rest: seq<Member>): seq<Member> {
    if exists i :: 0 <= i < |rest| && rest[i].key == m.key then rest else [m] + rest
  }

  // Section 3: a value, after any whitespace.
  function ReadValue(s: string): (r: Option<Parsed<Json>>)
    ensures r.Some? ==> |r.value.rest| < |s|
    decreases |s|, 1
  {
    var t := SkipWhite(s);
    if t == "" then None
    else match t[0]
      case 'n' => ReadLiteral(t, "null", Null)
      case 't' => ReadLiteral(t, "true", Bool(true))
      case 'f' => ReadLiteral(t, "false", Bool(false))
      case '"' =>
        var text := ReadChars(t[1..]);
        if text.None? then None else Some(Parsed(Str(text.value.value), text.value.rest))
      case '[' =>
        var u := SkipWhite(t[1..]);
        if u != "" && u[0] == ']' then Some(Parsed(Arr([]), u[1..]))
        else
          var items := ReadItems(u);
          if items.None? then None else Some(Parsed(Arr(items.value.value), items.value.rest))
      case '{' =>
        var u := SkipWhite(t[1..]);
        if u != "" && u[0] == '}' then Some(Parsed(Obj([]), u[1..]))
        else
          var members := ReadMembers(u);
          if members.None? then None else Some(Parsed(Obj(members.value.value), members.value.rest))
      case _ =>
        var n := NumberRun(t);
        if n > 0 && ValidNumber(t[..n]) then Some(Parsed(Num(t[..n]), t[n..])) else None
  }

  // Section 5: the items of a nonempty array and its closing bracket.
  function ReadItems(s: string): (r: Option<Parsed<seq<Json>>>)
    ensures r.Some? ==> |r.value.rest| < |s|
    decreases |s|, 2
  {
    var first := ReadValue(s);
    if first.None? then None
    else
      var t := SkipWhite(first.value.rest);
      if t == "" then None
      else if t[0] == ']' then Some(Parsed([first.value.value], t[1..]))
      else if t[0] != ',' then None
      else
        var others := ReadItems(t[1..]);
        if others.None? then None else Some(Parsed([first.value.value] + others.value.value, others.value.rest))
  }

  // Section 4: the members of a nonempty object and its closing brace.
  function ReadMembers(s: string): (r: Option<Parsed<seq<Member>>>)
    ensures r.Some? ==> |r.value.rest| < |s|
    decreases |s|, 2
  {
    var t := SkipWhite(s);
    if t == "" || t[0] != '"' then None
    else
      var key := ReadChars(t[1..]);
      if key.None? then None
      else
        var u := SkipWhite(key.value.rest);
        if u == "" || u[0] != ':' then None
        else
          var value := ReadValue(u[1..]);
          if value.None? then None
          else
            var m := Member(key.value.value, value.value.value);
            var w := SkipWhite(value.value.rest);
            if w == "" then None
            else if w[0] == '}' then Some(Parsed([m], w[1..]))
            else if w[0] != ',' then None
            else
              var others := ReadMembers(w[1..]);
              if others.None? then None else Some(Parsed(PutMember(m, others.value.value), others.value.rest))
  }

  /** One JSON text and nothing after it. */
  function Decode(text: string): Option<Json> {
    var read := ReadValue(text);
    if read.Some? && SkipWhite(read.value.rest) == "" then Some(read.value.value) else None
  }
}
