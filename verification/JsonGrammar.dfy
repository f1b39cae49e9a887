/** The texts that sections 2 to 7 of RFC 8259 allow for a value: a syntax tree with every choice of
    white space, escape and number form, the text it stands for and the value it means.

    Characters are given by code point, and nothing here but the values and UTF-8 is shared with the reader.
    Escapes of U+0000 and of surrogates are left out. */
module JsonGrammar {
  import opened Common
  import opened JsonSpec

  /** Section 2. */
  predicate Ws(c: char) { c as int == 0x20 || c as int == 0x09 || c as int == 0x0a || c as int == 0x0d }

  predicate Blanks(s: string) { forall i :: 0 <= i < |s| ==> Ws(s[i]) }

  predicate Digit(c: char) { 0x30 <= c as int <= 0x39 }

  predicate HexDigit(c: char) { Digit(c) || 0x41 <= c as int <= 0x46 || 0x61 <= c as int <= 0x66 }

  function DigitValue(c: char): (r: nat)
    requires HexDigit(c)
    ensures r < 16
  {
    if Digit(c) then c as int - 0x30 else if c as int <= 0x46 then c as int - 0x37 else c as int - 0x57
  }

  /** Section 7: what may follow a backslash, and what it stands for: quotation mark, reverse solidus and
      solidus themselves, then backspace, form feed, line feed, carriage return and tab. */
  const ESCAPES: map<int, int> := map[0x22 := 0x22, 0x5c := 0x5c, 0x2f := 0x2f, 0x62 := 0x08, 0x66 := 0x0c, 0x6e := 0x0a, 0x72 := 0x0d, 0x74 := 0x09]

  predicate Escape(c: char) { c as int in ESCAPES }

  function EscMeans(c: char): (r: char)
    requires Escape(c)
  {
    ESCAPES[c as int] as char
  }

  /** One character of a string: as itself, by a two-character escape, or by its code point. */
  datatype Ch = Plain(c: char) | Esc(c: char) | Uni(h: string)

  function Code(h: string): (r: nat)
    requires |h| == 4 && forall i :: 0 <= i < 4 ==> HexDigit(h[i])
    ensures r < 0x10000
  {
    0x1000 * DigitValue(h[0]) + 0x100 * DigitValue(h[1]) + 0x10 * DigitValue(h[2]) + DigitValue(h[3])
  }

  predicate ChOk(ch: Ch) {
    match ch
    case Plain(c) => 0x20 <= c as int && c as int != 0x22 && c as int != 0x5c
    case Esc(c) => Escape(c)
    case Uni(h) => |h| == 4 && (forall i :: 0 <= i < 4 ==> HexDigit(h[i])) && Code(h) != 0 && !(0xd800 <= Code(h) <= 0xdfff)
  }

  function ChText(ch: Ch): string {
    match ch
    case Plain(c) => [c]
    case Esc(c) => ['\\', c]
    case Uni(h) => ['\\', 'u'] + h
  }

  function ChMeans(ch: Ch): string
    requires ChOk(ch)
  {
    match ch
    case Plain(c) => [c]
    case Esc(c) => [EscMeans(c)]
    case Uni(h) => Utf8(Code(h))
  }

  predicate ChsOk(chs: seq<Ch>) { forall i :: 0 <= i < |chs| ==> ChOk(chs[i]) }

  function ChsText(chs: seq<Ch>): string {
    if chs == [] then "" else ChText(chs[0]) + ChsText(chs[1..])
  }

  function ChsMean(chs: seq<Ch>): string
    requires ChsOk(chs)
  {
    if chs == [] then "" else ChMeans(chs[0]) + ChsMean(chs[1..])
  }

  function Quoted(chs: seq<Ch>): string { ['"'] + ChsText(chs) + ['"'] }

  /** Section 6. */
  datatype Exp = Exp(e: char, sign: Opt<char>, digits: string)

  datatype Num = Num(minus: bool, whole: string, frac: Opt<string>, exp: Opt<Exp>)

  predicate SomeDigits(s: string) { s != [] && forall i :: 0 <= i < |s| ==> Digit(s[i]) }

  predicate NumOk(n: Num) {
    && SomeDigits(n.whole) && (n.whole[0] == '0' ==> |n.whole| == 1)
    && (n.frac.Some? ==> SomeDigits(n.frac.v))
    && (n.exp.Some? ==> ExpOk(n.exp.v))
  }

  predicate ExpOk(x: Exp) {
    (x.e == 'e' || x.e == 'E') && (x.sign.Some? ==> x.sign.v == '+' || x.sign.v == '-') && SomeDigits(x.digits)
  }

  function FracText(f: Opt<string>): string { if f.None? then "" else ['.'] + f.v }

  function ExpText(e: Opt<Exp>): string {
    if e.None? then ""
    else if e.v.sign.None? then [e.v.e] + e.v.digits
    else [e.v.e, e.v.sign.v] + e.v.digits
  }

  function NumText(n: Num): string {
    (if n.minus then "-" else "") + n.whole + FracText(n.frac) + ExpText(n.exp)
  }

  /** Values.  An element of an object has a key, with the white space around its colon. */
  datatype Key = NoKey | Key(chs: seq<Ch>, before: string, after: string)

  datatype Item = Item(pre: string, key: Key, v: V, post: string)

  datatype V = VNull | VTrue | VFalse | VNum(n: Num) | VText(chs: seq<Ch>) | VSeries(obj: bool, gap: string, items: seq<Item>)

  predicate KeyOk(k: Key, obj: bool) {
    if obj then k.Key? && ChsOk(k.chs) && Blanks(k.before) && Blanks(k.after) else k.NoKey?
  }

  predicate VOk(v: V) {
    match v
    case VNum(n) => NumOk(n)
    case VText(chs) => ChsOk(chs)
    case VSeries(obj, gap, items) => Blanks(gap) && ItemsOk(items, obj)
    case _ => true
  }

  predicate ItemsOk(items: seq<Item>, obj: bool) {
    items == [] || (Blanks(items[0].pre) && Blanks(items[0].post) && KeyOk(items[0].key, obj) && VOk(items[0].v) && ItemsOk(items[1..], obj))
  }

  function KeyText(k: Key): string {
    if k.NoKey? then "" else Quoted(k.chs) + k.before + [':'] + k.after
  }

  function VText1(v: V): string
    decreases v, 1
  {
    match v
    case VNull => "null"
    case VTrue => "true"
    case VFalse => "false"
    case VNum(n) => NumText(n)
    case VText(chs) => Quoted(chs)
    case VSeries(obj, gap, items) =>
      [if obj then '{' else '['] + (if items == [] then gap else ItemsText(items)) + [if obj then '}' else ']']
  }

  function ItemText(it: Item): string
    decreases it, 1
  {
    it.pre + KeyText(it.key) + VText1(it.v) + it.post
  }

  function ItemsText(items: seq<Item>): string
    decreases items, 0
  {
    if items == [] then "" else ItemText(items[0]) + if |items| == 1 then "" else [','] + ItemsText(items[1..])
  }

  function VMeans(v: V): J
    requires VOk(v)
    decreases v, 0
  {
    match v
    case VNull => Null
    case VTrue => True
    case VFalse => False
    case VNum(n) => Number(NumText(n))
    case VText(chs) => Text(ChsMean(chs))
    case VSeries(obj, gap, items) => if obj then Object(ItemsMean(items, obj)) else Array(ItemsMean(items, obj))
  }

  function ItemsMean(items: seq<Item>, obj: bool): seq<Node>
    requires ItemsOk(items, obj)
    decreases items, 1
  {
    if items == [] then []
    else [Node(if obj then Named(ChsMean(items[0].key.chs)) else Anon, VMeans(items[0].v))] + ItemsMean(items[1..], obj)
  }
}
