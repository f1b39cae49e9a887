/** The JSON reader of the Solo5 elftool, as functions of the input that is left.  Input bytes are
    characters below 256. */
module JsonSpec {
  datatype Res<T> = Fail | Ok(v: T, rest: string)

  datatype Name = Anon | Named(text: string)

  datatype Node = Node(name: Name, v: J)

  /** `jvalue`: an object is an array whose values have names. */
  datatype J = Null | True | False | Number(text: string) | Text(text: string) | Array(nodes: seq<Node>) | Object(nodes: seq<Node>)

  predicate IsWs(c: char) { c == ' ' || c == '\t' || c == '\n' || c == '\r' }

  /** `isspace`, which knows two characters more. */
  predicate IsSpace(c: char) { IsWs(c) || c == '\U{0B}' || c == '\U{0C}' }

  predicate IsDigit(c: char) { '0' <= c <= '9' }

  predicate IsHex(c: char) { IsDigit(c) || 'A' <= c <= 'F' || 'a' <= c <= 'f' }

  function HexVal(c: char): (r: nat)
    requires IsHex(c)
    ensures r < 16
  {
    if IsDigit(c) then c as int - '0' as int
    else if c <= 'F' then c as int - 'A' as int + 10
    else c as int - 'a' as int + 10
  }

  // UTF-8

  function Byte(n: nat): char
    requires n < 256
  {
    n as char
  }

  /** `twaddu`, for the code points that four hex digits can name. */
  function Utf8(c: nat): string
    requires c < 0x10000
  {
    if c <= 0x7f then [Byte(c)]
    else if c <= 0x7ff then [Byte(0xc0 + c / 64), Byte(0x80 + c % 64)]
    else [Byte(0xe0 + c / 4096), Byte(0x80 + c / 64 % 64), Byte(0x80 + c % 64)]
  }

  /** The decoding table of section 3 of RFC 3629, up to three octets. */
  function Decoded(s: string): nat {
    if |s| == 1 && s[0] as int < 0x80 then s[0] as int
    else if |s| == 2 && 0xc0 <= s[0] as int < 0xe0 && Continues(s[1]) then (s[0] as int - 0xc0) * 64 + (s[1] as int - 0x80)
    else if |s| == 3 && 0xe0 <= s[0] as int < 0xf0 && Continues(s[1]) && Continues(s[2])
    then (s[0] as int - 0xe0) * 4096 + (s[1] as int - 0x80) * 64 + (s[2] as int - 0x80)
    else 0
  }

  predicate Continues(c: char) { 0x80 <= c as int < 0xc0 }

  /** Every code point comes back, from the shortest form that holds it. */
  lemma Utf8Decodes(c: nat)
    requires c < 0x10000
    ensures Decoded(Utf8(c)) == c
    ensures |Utf8(c)| == if c < 0x80 then 1 else if c < 0x800 then 2 else 3
  {
    assert c / 4096 == c / 64 / 64;
  }

  // Tokens

  function SkipWs(s: string): (r: string)
    ensures |r| <= |s| && (r != [] ==> !IsWs(r[0]))
  {
    if s != [] && IsWs(s[0]) then SkipWs(s[1..]) else s
  }

  /** What a C string keeps of a buffer. */
  function CString(s: string): string {
    if s == [] || s[0] == '\0' then [] else [s[0]] + CString(s[1..])
  }

  /** What an escape stands for. */
  function Unescaped(c: char): (r: char)
    requires c in "\"\\/bfnrt"
  {
    if c == 'b' then '\U{08}'
    else if c == 'f' then '\U{0C}'
    else if c == 'n' then '\n'
    else if c == 'r' then '\r'
    else if c == 't' then '\t'
    else c
  }

  /** The loop of `readstring`: an escape is open, or `hex` digits of a code point are still to come. */
  function Chars(s: string, esc: bool, hex: nat, x: nat, acc: string): (r: Res<string>)
    requires hex <= 4 && (hex == 4 ==> x == 0) && (hex == 3 ==> x < 0x10) && (hex == 2 ==> x < 0x100) && (hex == 1 ==> x < 0x1000)
    ensures r.Ok? ==> |r.rest| < |s|
    decreases |s|
  {
    if s == [] then Fail
    else
      var c, t := s[0], s[1..];
      if hex > 0 then
        if !IsHex(c) then Fail
        else
          var y := 16 * x + HexVal(c);
          if hex == 1 then Chars(t, false, 0, y, acc + Utf8(y)) else Chars(t, false, hex - 1, y, acc)
      else if esc then
        if c == 'u' then Chars(t, false, 4, 0, acc)
        else if c in "\"\\/bfnrt" then Chars(t, false, 0, x, acc + [Unescaped(c)])
        else Fail
      else if c == '"' then Ok(CString(acc), t)
      else if c == '\\' then Chars(t, true, 0, x, acc)
      else if c >= ' ' then Chars(t, false, 0, x, acc + [c])
      else Fail
  }

  function ReadString(s: string): (r: Res<string>)
    ensures r.Ok? ==> |r.rest| < |s|
  {
    if s == [] || s[0] != '"' then Fail else Chars(s[1..], false, 0, 0, [])
  }

  /** The digits at the front. */
  function Digits(s: string): (r: string)
    ensures r <= s && (forall i :: 0 <= i < |r| ==> IsDigit(r[i])) && (|r| < |s| ==> !IsDigit(s[|r|]))
  {
    if s != [] && IsDigit(s[0]) then [s[0]] + Digits(s[1..]) else []
  }

  function Fraction(s: string): (r: string)
    ensures r <= s
  {
    if s != [] && s[0] == '.' then ['.'] + Digits(s[1..]) else []
  }

  function Exponent(s: string): (r: string)
    ensures r <= s
  {
    if s == [] || (s[0] != 'e' && s[0] != 'E') then []
    else if |s| > 1 && (s[1] == '+' || s[1] == '-') then s[..2] + Digits(s[2..])
    else s[..1] + Digits(s[1..])
  }

  function Whole(s: string): (r: string)
    ensures r <= s
  {
    if s != [] && s[0] == '0' then ['0'] else Digits(s)
  }

  /** `readnumber`, part by part; white space behind a number is consumed with it. */
  function NumberEnd(s: string, text: string): (r: Res<string>)
    ensures r.Ok? ==> |r.rest| <= |s|
  {
    if s == [] || s[0] == ',' || s[0] == ']' || s[0] == '}' then Ok(text, s)
    else if IsSpace(s[0]) then Ok(text, s[1..])
    else Fail
  }

  function NumberExponent(s: string, text: string): (r: Res<string>)
    ensures r.Ok? ==> |r.rest| <= |s|
  {
    var e := Exponent(s);
    NumberEnd(s[|e|..], text + e)
  }

  function NumberFraction(s: string, text: string): (r: Res<string>)
    ensures r.Ok? ==> |r.rest| <= |s|
  {
    var f := Fraction(s);
    NumberExponent(s[|f|..], text + f)
  }

  function NumberWhole(s: string, text: string): (r: Res<string>)
    ensures r.Ok? ==> |r.rest| < |s|
  {
    var w := Whole(s);
    if w == [] then Fail else NumberFraction(s[|w|..], text + w)
  }

  function ReadNumber(s: string): (r: Res<string>)
    ensures r.Ok? ==> |r.rest| < |s|
  {
    if s != [] && s[0] == '-' then NumberWhole(s[1..], "-") else NumberWhole(s, "")
  }

  /** `must`: the loop steps over a byte before it leaves for a mismatch, so the last one is only
      counted. */
  function Must(s: string, word: string, v: J): (r: Res<J>)
    ensures r.Ok? ==> |r.rest| == |s| - |word|
  {
    if |word| <= |s| && AllButLast(word) <= s then Ok(v, s[|word|..]) else Fail
  }

  function AllButLast(word: string): (r: string)
    ensures r <= word
  {
    if word == [] then [] else word[..|word| - 1]
  }

  /** `must` does what its description says, unless the input departs from the word in the last byte. */
  lemma MustExact(s: string, word: string, v: J)
    requires word != []
    ensures Must(s, word, v) == (if word <= s then Ok(v, s[|word|..]) else Fail)
            <==> !(|word| <= |s| && AllButLast(word) <= s && s[|word| - 1] != word[|word| - 1])
  {
    var n := |word| - 1;
    if |word| <= |s| && AllButLast(word) <= s {
      assert s[..n] == word[..n];
      if s[n] == word[n] {
        assert s[..n + 1] == s[..n] + [s[n]] && word == word[..n] + [word[n]];
      } else {
        assert s[..n + 1][n] != word[n];
      }
    }
  }

  // Values

  function ReadValue(s: string): (r: Res<J>)
    ensures r.Ok? ==> |r.rest| < |s|
    decreases |s|, 0
  {
    var t := SkipWs(s);
    if t == [] then Fail
    else if t[0] == 'f' then Must(t, "false", False)
    else if t[0] == 'n' then Must(t, "null", Null)
    else if t[0] == 't' then Must(t, "true", True)
    else if t[0] == '{' then
      var r := Series(t[1..], true, []);
      if r.Ok? then Ok(Object(r.v), r.rest) else Fail
    else if t[0] == '[' then
      var r := Series(t[1..], false, []);
      if r.Ok? then Ok(Array(r.v), r.rest) else Fail
    else if t[0] == '"' then
      var r := ReadString(t);
      if r.Ok? then Ok(Text(r.v), r.rest) else Fail
    else if t[0] == '-' || IsDigit(t[0]) then
      var r := ReadNumber(t);
      if r.Ok? then Ok(Number(r.v), r.rest) else Fail
    else Fail
  }

  /** So these are read as null, true and false. */
  lemma LastByteIgnored()
    ensures ReadValue("nulx") == Ok(Null, "") && ReadValue("truX") == Ok(True, "") && ReadValue("falsX") == Ok(False, "")
  {
    assert AllButLast("null") == "nul" && "nulx"[..3] == "nul";
    assert AllButLast("true") == "tru" && "truX"[..3] == "tru";
    assert AllButLast("false") == "fals" && "falsX"[..4] == "fals";
  }

  /** A name and the colon behind it. */
  function ReadKey(s: string): (r: Res<string>)
    ensures r.Ok? ==> |r.rest| < |s|
  {
    var k := ReadString(s);
    if k.Fail? then Fail
    else
      var t := SkipWs(k.rest);
      if t == [] || t[0] != ':' then Fail else Ok(k.v, t[1..])
  }

  /** `readvalue` or `readobjel`, as an element of a series. */
  function Element(s: string, obj: bool): (r: Res<Node>)
    ensures r.Ok? ==> |r.rest| < |s|
    decreases |s|, 1
  {
    if !obj then
      var r := ReadValue(s);
      if r.Ok? then Ok(Node(Anon, r.v), r.rest) else Fail
    else
      var k := ReadKey(s);
      if k.Fail? then Fail
      else
        var r := ReadValue(k.rest);
        if r.Ok? then Ok(Node(Named(k.v), r.v), r.rest) else Fail
  }

  function Closer(obj: bool): char { if obj then '}' else ']' }

  /** The loop of `readseries`. */
  function Series(s: string, obj: bool, acc: seq<Node>): (r: Res<seq<Node>>)
    ensures r.Ok? ==> |r.rest| < |s|
    decreases |s|, 2
  {
    var t := SkipWs(s);
    if t == [] then Fail
    else if t[0] == ',' then (if acc == [] then Fail else Series(t[1..], obj, acc))
    else if t[0] == Closer(obj) then Ok(acc, t[1..])
    else
      var e := Element(t, obj);
      if e.Ok? then Series(e.rest, obj, acc + [e.v]) else Fail
  }
}
