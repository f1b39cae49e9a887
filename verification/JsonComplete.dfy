/** The reader is complete: from every text that the grammar allows for a value it reads that value. */
module JsonComplete {
  import opened Common
  import opened JsonSpec
  import opened JsonGrammar

  // Concatenation

  lemma AppendFront(a: string, b: string, s: string)
    requires s == a + b && a != []
    ensures s[0] == a[0] && s[1..] == a[1..] + b
  {
  }

  lemma {:induction false} SkipBlanks(w: string, s: string)
    requires Blanks(w) && (s != [] ==> !IsWs(s[0]))
    ensures SkipWs(w + s) == s
  {
    if w != [] {
      AppendFront(w, s, w + s);
      SkipBlanks(w[1..], s);
    } else {
      assert w + s == s;
    }
  }

  // Strings

  lemma HexSame(c: char)
    requires HexDigit(c)
    ensures IsHex(c) && HexVal(c) == DigitValue(c)
  {
  }

  lemma {:induction false} HexChars(h: string, t: string, acc: string)
    requires |h| == 4 && forall i :: 0 <= i < 4 ==> HexDigit(h[i])
    ensures Chars(h + t, false, 4, 0, acc) == Chars(t, false, 0, Code(h), acc + Utf8(Code(h)))
  {
    var s := h + t;
    HexSame(h[0]);
    HexSame(h[1]);
    HexSame(h[2]);
    HexSame(h[3]);
    var x1 := HexVal(h[0]);
    var x2 := 16 * x1 + HexVal(h[1]);
    var x3 := 16 * x2 + HexVal(h[2]);
    assert Chars(s, false, 4, 0, acc) == Chars(s[1..], false, 3, x1, acc);
    assert s[1..][1..] == s[2..] && s[2..][1..] == s[3..] && s[3..][1..] == s[4..] && s[4..] == t;
    assert Chars(s[1..], false, 3, x1, acc) == Chars(s[2..], false, 2, x2, acc);
    assert Chars(s[2..], false, 2, x2, acc) == Chars(s[3..], false, 1, x3, acc);
    assert 16 * x3 + HexVal(h[3]) == Code(h);
  }

  /** Outside an escape the last code point does not matter. */
  lemma {:induction false} StaleX(s: string, x: nat, y: nat, esc: bool, acc: string)
    ensures Chars(s, esc, 0, x, acc) == Chars(s, esc, 0, y, acc)
    decreases |s|
  {
    if s != [] {
      var c, t := s[0], s[1..];
      if esc {
        if c != 'u' && c in "\"\\/bfnrt" {
          StaleX(t, x, y, false, acc + [Unescaped(c)]);
        }
      } else if c == '\\' {
        StaleX(t, x, y, true, acc);
      } else if c != '"' && c >= ' ' {
        StaleX(t, x, y, false, acc + [c]);
      }
    }
  }

  /** One character of a string is read as what it means. */
  lemma {:induction false} ReadsChar(ch: Ch, t: string, acc: string)
    requires ChOk(ch)
    ensures Chars(ChText(ch) + t, false, 0, 0, acc) == Chars(t, false, 0, 0, acc + ChMeans(ch))
  {
    var s := ChText(ch) + t;
    match ch
    case Plain(c) => assert s[1..] == t;
    case Esc(c) =>
      assert s[1..][1..] == t && s[1..][0] == c;
    case Uni(h) =>
      assert s[1..] == ['u'] + h + t && s[1..][1..] == h + t;
      HexChars(h, t, acc);
      StaleX(t, Code(h), 0, false, acc + Utf8(Code(h)));
  }

  predicate NoNul(s: string) { forall i :: 0 <= i < |s| ==> s[i] != '\0' }

  lemma {:induction false} CStringAll(s: string)
    requires NoNul(s)
    ensures CString(s) == s
  {
    if s != [] {
      CStringAll(s[1..]);
    }
  }

  lemma MeansNoNul(ch: Ch)
    requires ChOk(ch)
    ensures NoNul(ChMeans(ch))
  {
  }

  lemma NoNulJoin(a: string, b: string)
    requires NoNul(a) && NoNul(b)
    ensures NoNul(a + b)
  {
  }

  lemma {:induction false} CharsEnd(q: string, acc: string)
    requires NoNul(acc) && q != [] && q[0] == '"'
    ensures Chars(q, false, 0, 0, acc) == Ok(acc, q[1..])
  {
    CStringAll(acc);
  }

  lemma {:induction false} CharsSplit(chs: seq<Ch>, q: string, acc: string)
    requires chs != [] && ChsOk(chs)
    ensures ChsText(chs) + q == ChText(chs[0]) + (ChsText(chs[1..]) + q)
    ensures acc + ChsMean(chs) == acc + ChMeans(chs[0]) + ChsMean(chs[1..])
  {
    Assoc(ChText(chs[0]), ChsText(chs[1..]), q);
    Assoc(acc, ChMeans(chs[0]), ChsMean(chs[1..]));
  }

  lemma {:induction false} ReadsChars(chs: seq<Ch>, q: string, acc: string)
    requires ChsOk(chs) && NoNul(acc) && q != [] && q[0] == '"'
    ensures Chars(ChsText(chs) + q, false, 0, 0, acc) == Ok(acc + ChsMean(chs), q[1..])
  {
    if chs == [] {
      assert ChsText(chs) + q == q && acc + ChsMean(chs) == acc;
      CharsEnd(q, acc);
    } else {
      CharsSplit(chs, q, acc);
      ReadsChar(chs[0], ChsText(chs[1..]) + q, acc);
      MeansNoNul(chs[0]);
      NoNulJoin(acc, ChMeans(chs[0]));
      ReadsChars(chs[1..], q, acc + ChMeans(chs[0]));
    }
  }

  lemma {:induction false} ReadsString(chs: seq<Ch>, t: string)
    requires ChsOk(chs)
    ensures ReadString(Quoted(chs) + t) == Ok(ChsMean(chs), t)
  {
    var s := Quoted(chs) + t;
    var q := ['"'] + t;
    assert s[1..] == ChsText(chs) + q && q[1..] == t;
    ReadsChars(chs, q, []);
    assert [] + ChsMean(chs) == ChsMean(chs);
  }

  // Numbers

  /** What may follow a value: the end, white space, a comma or a bracket. */
  predicate Follows(t: string) { t == [] || Ws(t[0]) || t[0] == ',' || t[0] == ']' || t[0] == '}' }

  lemma {:induction false} DigitsAll(d: string, t: string)
    requires (forall i :: 0 <= i < |d| ==> IsDigit(d[i])) && (t != [] ==> !IsDigit(t[0]))
    ensures Digits(d + t) == d
  {
    if d != [] {
      AppendFront(d, t, d + t);
      DigitsAll(d[1..], t);
    } else {
      assert d + t == t;
    }
  }

  lemma Suffix(a: string, b: string)
    ensures (a + b)[|a|..] == b
  {
  }

  lemma Assoc(a: string, b: string, c: string)
    ensures (a + b) + c == a + (b + c)
  {
  }

  lemma Assoc5(a: string, b: string, c: string, d: string, t: string)
    ensures a + b + c + d + t == a + (b + (c + (d + t)))
  {
    Assoc(a + b + c, d, t);
    Assoc(a + b, c, d + t);
    Assoc(a, b, c + (d + t));
  }

  lemma {:induction false} ExpPlain(e: char, d: string, t: string)
    requires (e == 'e' || e == 'E') && SomeDigits(d) && (t != [] ==> !IsDigit(t[0]))
    ensures Exponent([e] + d + t) == [e] + d
  {
    var s := [e] + d + t;
    assert s[1..] == d + t && s[..1] == [e];
    DigitsAll(d, t);
  }

  lemma {:induction false} ExpSigned(e: char, g: char, d: string, t: string)
    requires (e == 'e' || e == 'E') && (g == '+' || g == '-') && SomeDigits(d) && (t != [] ==> !IsDigit(t[0]))
    ensures Exponent([e, g] + d + t) == [e, g] + d
  {
    var s := [e, g] + d + t;
    assert s[2..] == d + t && s[..2] == [e, g];
    DigitsAll(d, t);
  }

  lemma {:induction false} ReadsExp(e: Opt<Exp>, t: string)
    requires (e.Some? ==> ExpOk(e.v)) && Follows(t)
    ensures Exponent(ExpText(e) + t) == ExpText(e)
  {
    if e.None? {
      assert ExpText(e) + t == t;
    } else if e.v.sign.None? {
      ExpPlain(e.v.e, e.v.digits, t);
    } else {
      ExpSigned(e.v.e, e.v.sign.v, e.v.digits, t);
    }
  }

  lemma {:induction false} ReadsFrac(f: Opt<string>, t: string)
    requires (f.Some? ==> SomeDigits(f.v)) && (t != [] ==> !IsDigit(t[0]) && t[0] != '.')
    ensures Fraction(FracText(f) + t) == FracText(f)
  {
    var s := FracText(f) + t;
    if f.Some? {
      assert s[1..] == f.v + t;
      DigitsAll(f.v, t);
    } else {
      assert s == t;
    }
  }

  lemma {:induction false} ReadsWhole(w: string, t: string)
    requires SomeDigits(w) && (w[0] == '0' ==> |w| == 1) && (t != [] ==> !IsDigit(t[0]))
    ensures Whole(w + t) == w
  {
    if w[0] != '0' {
      DigitsAll(w, t);
    }
  }

  /** What is left after a value: a number takes one white space with it. */
  function After(v: V, t: string): string {
    if v.VNum? && t != [] && Ws(t[0]) then t[1..] else t
  }

  /** From the exponent on. */
  lemma {:induction false} ReadsTail(n: Num, t: string, text: string)
    requires NumOk(n) && Follows(t)
    ensures NumberExponent(ExpText(n.exp) + t, text) == Ok(text + ExpText(n.exp), After(VNum(n), t))
  {
    ReadsExp(n.exp, t);
    Suffix(ExpText(n.exp), t);
  }

  /** From the fraction on. */
  lemma {:induction false} ReadsRest(n: Num, t: string, text: string)
    requires NumOk(n) && Follows(t)
    ensures var u := ExpText(n.exp) + t;
            NumberFraction(FracText(n.frac) + u, text) == Ok(text + FracText(n.frac) + ExpText(n.exp), After(VNum(n), t))
  {
    var u := ExpText(n.exp) + t;
    ReadsTail(n, t, text + FracText(n.frac));
    ReadsFrac(n.frac, u);
    Suffix(FracText(n.frac), u);
  }

  /** All but the sign. */
  lemma {:induction false} ReadsUnsigned(n: Num, t: string, text: string)
    requires NumOk(n) && Follows(t)
    ensures var u := FracText(n.frac) + (ExpText(n.exp) + t);
            NumberWhole(n.whole + u, text) == Ok(text + n.whole + FracText(n.frac) + ExpText(n.exp), After(VNum(n), t))
  {
    var u := FracText(n.frac) + (ExpText(n.exp) + t);
    ReadsRest(n, t, text + n.whole);
    ReadsWhole(n.whole, u);
    Suffix(n.whole, u);
  }

  lemma {:induction false} ReadsNumber(n: Num, t: string)
    requires NumOk(n) && Follows(t)
    ensures ReadNumber(NumText(n) + t) == Ok(NumText(n), After(VNum(n), t))
  {
    var sign := if n.minus then "-" else "";
    var u := n.whole + (FracText(n.frac) + (ExpText(n.exp) + t));
    ReadsUnsigned(n, t, sign);
    Assoc5(sign, n.whole, FracText(n.frac), ExpText(n.exp), t);
    assert u[0] == n.whole[0];
    ReadsSign(n.minus, u);
  }

  lemma {:induction false} ReadsSign(minus: bool, u: string)
    requires u != [] && u[0] != '-'
    ensures var sign := if minus then "-" else ""; ReadNumber(sign + u) == NumberWhole(u, sign)
  {
    if minus {
      assert ("-" + u)[1..] == u;
    } else {
      assert "" + u == u;
    }
  }

  // Values

  predicate Starts(c: char) { c == 'f' || c == 'n' || c == 't' || c == '{' || c == '[' || c == '"' || c == '-' || IsDigit(c) }

  lemma {:induction false} ValueStarts(v: V)
    requires VOk(v)
    ensures VText1(v) != [] && Starts(VText1(v)[0])
  {
    match v
    case VNum(n) =>
      assert NumText(n)[0] == if n.minus then '-' else n.whole[0];
    case _ =>
  }

  /** Leading white space does not matter. */
  lemma {:induction false} SkipFront(w: string, s: string)
    requires Blanks(w)
    ensures SkipWs(w + s) == SkipWs(s)
  {
    if w != [] {
      AppendFront(w, s, w + s);
      SkipFront(w[1..], s);
    } else {
      assert w + s == s;
    }
  }

  // One step of the reader each

  lemma {:induction false} ValueFront(w: string, s: string)
    requires Blanks(w)
    ensures ReadValue(w + s) == ReadValue(s)
  {
    SkipFront(w, s);
  }

  lemma {:induction false} ValueString(s: string, r: Res<string>)
    requires s != [] && s[0] == '"' && ReadString(s) == r && r.Ok?
    ensures ReadValue(s) == Ok(Text(r.v), r.rest)
  {
  }

  lemma NumberFront(c: char)
    requires c == '-' || IsDigit(c)
    ensures !IsWs(c) && c != 'f' && c != 'n' && c != 't' && c != '{' && c != '[' && c != '"'
  {
  }

  /** The branch of `readvalue` for numbers. */
  function NumberValue(r: Res<string>): Res<J> {
    if r.Ok? then Ok(Number(r.v), r.rest) else Fail
  }

  lemma {:induction false} ValueNumber(s: string)
    requires s != [] && (s[0] == '-' || IsDigit(s[0]))
    ensures ReadValue(s) == NumberValue(ReadNumber(s))
  {
    NumberFront(s[0]);
    assert SkipWs(s) == s;
  }

  lemma {:induction false} ValueSeries(s: string, obj: bool, r: Res<seq<Node>>)
    requires s != [] && s[0] == (if obj then '{' else '[') && Series(s[1..], obj, []) == r && r.Ok?
    ensures ReadValue(s) == Ok(if obj then Object(r.v) else Array(r.v), r.rest)
  {
  }

  lemma {:induction false} ElementKeyed(s: string, k: Res<string>, t: string, r: Res<J>)
    requires ReadString(s) == k && k.Ok? && SkipWs(k.rest) == t && t != [] && t[0] == ':' && ReadValue(t[1..]) == r && r.Ok?
    ensures Element(s, true) == Ok(Node(Named(k.v), r.v), r.rest)
  {
  }

  lemma {:induction false} SeriesEnd(s: string, t: string, obj: bool, acc: seq<Node>)
    requires SkipWs(s) == t && t != [] && t[0] == Closer(obj)
    ensures Series(s, obj, acc) == Ok(acc, t[1..])
  {
  }

  lemma {:induction false} SeriesComma(s: string, t: string, obj: bool, acc: seq<Node>)
    requires SkipWs(s) == t && t != [] && t[0] == ',' && acc != []
    ensures Series(s, obj, acc) == Series(t[1..], obj, acc)
  {
  }

  lemma {:induction false} SeriesElement(s: string, t: string, obj: bool, acc: seq<Node>, e: Res<Node>)
    requires SkipWs(s) == t && t != [] && Starts(t[0]) && Element(t, obj) == e && e.Ok?
    ensures Series(s, obj, acc) == Series(e.rest, obj, acc + [e.v])
  {
  }

  lemma {:induction false} ReadsWord(v: V, t: string)
    requires v.VNull? || v.VTrue? || v.VFalse?
    ensures ReadValue(VText1(v) + t) == Ok(VMeans(v), t)
  {
    Suffix(VText1(v), t);
  }

  lemma {:induction false} ReadsValue(v: V, t: string)
    requires VOk(v) && Follows(t)
    ensures ReadValue(VText1(v) + t) == Ok(VMeans(v), After(v, t))
    decreases v, 2
  {
    match v
    case VNum(n) =>
      ValueStarts(v);
      ReadsNumber(n, t);
      ValueNumber(NumText(n) + t);
    case VText(chs) =>
      ReadsString(chs, t);
      ValueString(Quoted(chs) + t, Ok(ChsMean(chs), t));
    case VSeries(obj, gap, items) => ReadsSeries(v, obj, gap, items, t);
    case _ => ReadsWord(v, t);
  }

  lemma {:induction false} ReadsSeries(v: V, obj: bool, gap: string, items: seq<Item>, t: string)
    requires v == VSeries(obj, gap, items) && VOk(v)
    ensures ReadValue(VText1(v) + t) == Ok(VMeans(v), t)
    decreases v, 1
  {
    var s, end := VText1(v) + t, [Closer(obj)] + t;
    var body := if items == [] then gap else ItemsText(items);
    SeriesText(obj, body, t);
    if items == [] {
      SkipBlanks(gap, end);
      SeriesEnd(gap + end, end, obj, []);
    } else {
      assert "" + (ItemsText(items) + end) == ItemsText(items) + end;
      ReadsItems(items, obj, [], "", end);
      assert [] + ItemsMean(items, obj) == ItemsMean(items, obj);
    }
    ValueSeries(s, obj, Ok(ItemsMean(items, obj), t));
  }

  lemma {:induction false} SeriesText(obj: bool, body: string, t: string)
    ensures var s, end := [if obj then '{' else '['] + body + [Closer(obj)] + t, [Closer(obj)] + t;
            s[1..] == body + end && end[1..] == t && s[0] == if obj then '{' else '['
  {
  }

  /** One element, from its key on. */
  lemma {:induction false} ReadsElement(it: Item, obj: bool, t: string)
    requires KeyOk(it.key, obj) && VOk(it.v) && Follows(t)
    ensures Element(KeyText(it.key) + (VText1(it.v) + t), obj) == Ok(NodeOf(it, obj), After(it.v, t))
    decreases it, 3
  {
    ReadsValue(it.v, t);
    var u := VText1(it.v) + t;
    if obj {
      var k := it.key;
      var c := [':'] + (k.after + u);
      KeySplit(k, u);
      ReadsString(k.chs, k.before + c);
      SkipBlanks(k.before, c);
      assert c[1..] == k.after + u;
      ValueFront(k.after, u);
      ElementKeyed(KeyText(k) + u, Ok(ChsMean(k.chs), k.before + c), c, Ok(VMeans(it.v), After(it.v, t)));
    } else {
      assert KeyText(it.key) + u == u;
    }
  }

  lemma {:induction false} KeySplit(k: Key, u: string)
    requires k.Key?
    ensures KeyText(k) + u == Quoted(k.chs) + (k.before + ([':'] + (k.after + u)))
  {
    Assoc5(Quoted(k.chs), k.before, [':'], k.after, u);
  }

  /** What an element means. */
  function NodeOf(it: Item, obj: bool): Node
    requires KeyOk(it.key, obj) && VOk(it.v)
  {
    Node(if obj then Named(ChsMean(it.key.chs)) else Anon, VMeans(it.v))
  }

  /** What follows the elements read so far. */
  function Onward(items: seq<Item>, end: string): string {
    if items == [] then end else [','] + (ItemsText(items) + end)
  }

  /** After an element: white space, then a comma or the closing bracket. */
  lemma {:induction false} AfterBlanks(v: V, post: string, tail: string)
    requires Blanks(post) && tail != [] && !IsWs(tail[0])
    ensures exists w :: Blanks(w) && After(v, post + tail) == w + tail
  {
    if v.VNum? && post != [] {
      AppendFront(post, tail, post + tail);
      assert Blanks(post[1..]) && After(v, post + tail) == post[1..] + tail;
    } else if post == [] {
      assert post + tail == tail && After(v, tail) == tail && [] + tail == tail && Blanks("");
    } else {
      assert Blanks(post) && After(v, post + tail) == post + tail;
    }
  }

  lemma {:induction false} ItemsSplit(items: seq<Item>, end: string)
    requires items != []
    ensures var it := items[0];
            ItemsText(items) + end == it.pre + (KeyText(it.key) + (VText1(it.v) + (it.post + Onward(items[1..], end))))
  {
    var it := items[0];
    var more := if |items| == 1 then "" else [','] + ItemsText(items[1..]);
    assert more + end == Onward(items[1..], end);
    Assoc(ItemText(it), more, end);
    Assoc5(it.pre, KeyText(it.key), VText1(it.v), it.post, more + end);
  }

  /** A series, from the white space before its first element to its closing bracket. */
  lemma {:induction false} ReadsItems(items: seq<Item>, obj: bool, acc: seq<Node>, w: string, end: string)
    requires items != [] && ItemsOk(items, obj) && Blanks(w) && end != [] && end[0] == Closer(obj)
    ensures Series(w + (ItemsText(items) + end), obj, acc) == Ok(acc + ItemsMean(items, obj), end[1..])
    decreases items, 4
  {
    var it, tail := items[0], Onward(items[1..], end);
    var t, node := it.post + tail, NodeOf(items[0], obj);
    ReadsElement(it, obj, t);
    FirstElement(items, obj, acc, w, end);
    AfterBlanks(it.v, it.post, tail);
    var w' :| Blanks(w') && After(it.v, t) == w' + tail;
    SkipBlanks(w', tail);
    if |items| == 1 {
      SeriesEnd(w' + tail, tail, obj, acc + [node]);
    } else {
      SeriesComma(w' + tail, tail, obj, acc + [node]);
      assert tail[1..] == "" + (ItemsText(items[1..]) + end);
      ReadsItems(items[1..], obj, acc + [node], "", end);
    }
    MeansStep(items, obj, acc);
  }

  lemma {:induction false} MeansStep(items: seq<Item>, obj: bool, acc: seq<Node>)
    requires items != [] && ItemsOk(items, obj)
    ensures acc + ItemsMean(items, obj) == acc + [NodeOf(items[0], obj)] + ItemsMean(items[1..], obj)
    ensures |items| == 1 ==> acc + ItemsMean(items, obj) == acc + [NodeOf(items[0], obj)]
  {
    var more := ItemsMean(items[1..], obj);
    assert ItemsMean(items, obj) == [NodeOf(items[0], obj)] + more;
    assert |items| == 1 ==> more == [];
  }

  lemma {:induction false} FirstElement(items: seq<Item>, obj: bool, acc: seq<Node>, w: string, end: string)
    requires items != [] && ItemsOk(items, obj) && Blanks(w)
    requires var it, t := items[0], items[0].post + Onward(items[1..], end);
             Element(KeyText(it.key) + (VText1(it.v) + t), obj) == Ok(NodeOf(it, obj), After(it.v, t))
    ensures var it, t := items[0], items[0].post + Onward(items[1..], end);
            Series(w + (ItemsText(items) + end), obj, acc) == Series(After(it.v, t), obj, acc + [NodeOf(it, obj)])
  {
    var it, t := items[0], items[0].post + Onward(items[1..], end);
    var u := KeyText(it.key) + (VText1(it.v) + t);
    ItemsSplit(items, end);
    ElementStarts(it, obj, t);
    SkipFront(w, it.pre + u);
    SkipBlanks(it.pre, u);
    SeriesElement(w + (ItemsText(items) + end), u, obj, acc, Ok(NodeOf(it, obj), After(it.v, t)));
  }

  lemma {:induction false} ElementStarts(it: Item, obj: bool, t: string)
    requires KeyOk(it.key, obj) && VOk(it.v)
    ensures var u := KeyText(it.key) + (VText1(it.v) + t); u != [] && Starts(u[0]) && !IsWs(u[0])
  {
    ValueStarts(it.v);
  }

  /** Section 2: a text is a value with white space around it.  `jparse` returns the value. */
  lemma {:induction false} ParsesAll(pre: string, v: V, post: string)
    requires Blanks(pre) && VOk(v) && Blanks(post)
    ensures ReadValue(pre + (VText1(v) + post)).Ok? && ReadValue(pre + (VText1(v) + post)).v == VMeans(v)
  {
    ReadsValue(v, post);
    ValueFront(pre, VText1(v) + post);
  }
}
