/** The JSON reader as it runs: growing buffers, a position in the input, and loops that decide by the
    next character.  Each method does what the function of the same name in `JsonSpec` says. */
module JsonReader {
  import opened Common
  import J = JsonSpec

  /** The result is what the function says, and the input has been read as far as it says. */
  ghost predicate Did<T>(r: Opt<T>, res: J.Res<T>, rest: string) {
    if res.Ok? then r == Some(res.v) && rest == res.rest else r == None
  }

  /** `twine` and `ptrvec`: a buffer that always has room for a terminator behind its contents. */
  class Growing<T(0)> {
    const nul: T
    const initial: nat
    var p: array<T>
    var len: nat

    constructor (nul: T, initial: nat)
      requires initial >= 2
      ensures Valid() && fresh(p) && Contents() == [] && this.nul == nul && this.initial == initial
    {
      this.nul, this.initial := nul, initial;
      p := new T[0];
      len := 0;
    }

    ghost predicate Valid()
      reads this, p
    {
      initial >= 2 && if p.Length == 0 then len == 0 else len < p.Length && p[len] == nul
    }

    ghost function Contents(): seq<T>
      requires Valid()
      reads this, p
    {
      p[..len]
    }

    /** `twsize`, `pvsize`: never called with less room than the contents need. */
    method Size(n: nat)
      requires Valid() && n > len
      modifies this`p
      ensures fresh(p) && p.Length == n && len == old(len) && p[..len] == old(p[..len])
    {
      var q := new T[n];
      forall i | 0 <= i < len {
        q[i] := p[i];
      }
      p := q;
    }

    /** `twensure`, `pvensure`. */
    method Ensure(n: nat)
      requires Valid() && n > len
      modifies this`p
      ensures p.Length >= n && (p == old(p) || fresh(p)) && len == old(len) && p[..len] == old(p[..len])
    {
      if n <= p.Length {
        return;
      }
      if p.Length == 0 && n <= initial {
        Size(initial);
        return;
      }
      var bigger := p.Length * 3 / 2;
      if bigger < n {
        bigger := n * 3 / 2;
      }
      Size(bigger);
    }

    /** `twaddc`, `pvadd`. */
    method Add(c: T)
      requires Valid()
      modifies this, p
      ensures Valid() && (p == old(p) || fresh(p)) && Contents() == old(Contents()) + [c]
    {
      Ensure(len + 2);
      p[len] := c;
      p[len + 1] := nul;
      len := len + 1;
    }
  }

  /** `twaddu`, for the code points that four hex digits can name. */
  method AddU(t: Growing<char>, c: nat)
    requires t.Valid() && c < 0x10000
    modifies t, t.p
    ensures t.Valid() && (t.p == old(t.p) || fresh(t.p)) && t.Contents() == old(t.Contents()) + J.Utf8(c)
  {
    ghost var was := t.Contents();
    if c <= 0x7f {
      t.Add(c as char);
    } else if c <= 0x7ff {
      t.Add((0xc0 + c / 64) as char);
      t.Add((0x80 + c % 64) as char);
    } else {
      t.Add((0xe0 + c / 4096) as char);
      t.Add((0x80 + c / 64 % 64) as char);
      t.Add((0x80 + c % 64) as char);
    }
    assert t.Contents() == was + J.Utf8(c);
  }

  /** `twfinal`: what a C string keeps of the buffer. */
  method Final(t: Growing<char>) returns (s: string)
    requires t.Valid() && t.nul == '\0'
    ensures s == J.CString(t.Contents())
  {
    s := [];
    var i := 0;
    assert t.p[..t.len][0..] == t.p[..t.len];
    while i < t.len && t.p[i] != '\0'
      invariant 0 <= i <= t.len && s + J.CString(t.Contents()[i..]) == J.CString(t.Contents())
    {
      ghost var c := t.Contents();
      assert c[i..][0] == c[i] && c[i..][1..] == c[i + 1..];
      s := s + [t.p[i]];
      i := i + 1;
    }
    assert J.CString(t.Contents()[i..]) == [];
  }

  class Reader {
    const input: string
    var pos: nat

    constructor (input: string)
      ensures this.input == input && pos == 0 && Valid()
    {
      this.input, pos := input, 0;
    }

    ghost predicate Valid()
      reads this
    {
      pos <= |input|
    }

    /** What is still to be read. */
    ghost function Rest(): string
      requires Valid()
      reads this
    {
      input[pos..]
    }

    lemma RestFront()
      requires Valid() && pos < |input|
      ensures Rest() != [] && Rest()[0] == input[pos] && Rest()[1..] == input[pos + 1..] && Rest() == [input[pos]] + input[pos + 1..]
    {
    }

    /** `skipws`. */
    method SkipWs()
      requires Valid()
      modifies this
      ensures Valid() && Rest() == J.SkipWs(old(Rest()))
    {
      while pos < |input| && J.IsWs(input[pos])
        invariant Valid() && J.SkipWs(Rest()) == J.SkipWs(old(Rest()))
      {
        RestFront();
        pos := pos + 1;
      }
      if pos < |input| {
        RestFront();
      }
    }

    /** `readstring`. */
    method ReadString() returns (r: Opt<string>)
      requires Valid()
      modifies this
      ensures Valid() && Did(r, J.ReadString(old(Rest())), Rest())
    {
      if pos == |input| || input[pos] != '"' {
        return None;
      }
      RestFront();
      pos := pos + 1;
      var tw := new Growing<char>('\0', TW_INITIAL);
      var st := Go(false, 0, 0);
      ghost var res := J.Chars(Rest(), false, 0, 0, []);
      while pos < |input|
        invariant Valid() && tw.Valid() && fresh(tw) && fresh(tw.p) && tw.nul == '\0' && st.Go? && InHex(st.hex, st.x)
        invariant J.Chars(Rest(), st.esc, st.hex, st.x, tw.Contents()) == res
        decreases |input| - pos
      {
        RestFront();
        var c := input[pos];
        pos := pos + 1;
        st := OneChar(tw, c, st, Rest());
        if st.Oops? {
          return None;
        }
        if st.Done? {
          var s := Final(tw);
          return Some(s);
        }
      }
      r := None;
    }

    // Numbers

    method Digits() returns (ds: string)
      requires Valid()
      modifies this
      ensures Valid() && ds == J.Digits(old(Rest())) && Rest() == old(Rest())[|ds|..]
    {
      var start := pos;
      while pos < |input| && J.IsDigit(input[pos])
        invariant start <= pos <= |input| && forall i :: start <= i < pos ==> J.IsDigit(input[i])
      {
        pos := pos + 1;
      }
      DigitsScan(old(Rest()), pos - start);
      ds := input[start..pos];
    }

    method Whole() returns (w: string)
      requires Valid()
      modifies this
      ensures Valid() && w == J.Whole(old(Rest())) && Rest() == old(Rest())[|w|..]
    {
      if pos < |input| && input[pos] == '0' {
        RestFront();
        pos := pos + 1;
        return "0";
      }
      w := Digits();
    }

    method Fraction() returns (f: string)
      requires Valid()
      modifies this
      ensures Valid() && f == J.Fraction(old(Rest())) && Rest() == old(Rest())[|f|..]
    {
      if pos == |input| || input[pos] != '.' {
        return "";
      }
      RestFront();
      pos := pos + 1;
      var ds := Digits();
      f := "." + ds;
    }

    method Exponent() returns (e: string)
      requires Valid()
      modifies this
      ensures Valid() && e == J.Exponent(old(Rest())) && Rest() == old(Rest())[|e|..]
    {
      if pos == |input| || (input[pos] != 'e' && input[pos] != 'E') {
        return "";
      }
      e := [input[pos]];
      pos := pos + 1;
      if pos < |input| && (input[pos] == '+' || input[pos] == '-') {
        e := e + [input[pos]];
        pos := pos + 1;
      }
      ghost var was := Rest();
      assert old(Rest())[|e|..] == was && old(Rest())[..|e|] == e;
      var ds := Digits();
      assert e + ds == J.Exponent(old(Rest()));
      assert old(Rest())[|e + ds|..] == was[|ds|..];
      e := e + ds;
    }

    method NumberEnd(text: string) returns (r: Opt<string>)
      requires Valid()
      modifies this
      ensures Valid() && Did(r, J.NumberEnd(old(Rest()), text), Rest())
    {
      if pos == |input| || input[pos] == ',' || input[pos] == ']' || input[pos] == '}' {
        return Some(text);
      }
      RestFront();
      if J.IsSpace(input[pos]) {
        pos := pos + 1;
        return Some(text);
      }
      r := None;
    }

    method NumberTail(text: string) returns (r: Opt<string>)
      requires Valid()
      modifies this
      ensures Valid() && Did(r, J.NumberFraction(old(Rest()), text), Rest())
    {
      var f := Fraction();
      var e := Exponent();
      r := NumberEnd(text + f + e);
    }

    /** `readnumber`. */
    method ReadNumber() returns (r: Opt<string>)
      requires Valid()
      modifies this
      ensures Valid() && Did(r, J.ReadNumber(old(Rest())), Rest())
    {
      var text := "";
      if pos < |input| && input[pos] == '-' {
        RestFront();
        text := "-";
        pos := pos + 1;
      }
      var w := Whole();
      if w == [] {
        return None;
      }
      r := NumberTail(text + w);
    }

    /** `must`. */
    method Must(word: string, v: J.J) returns (r: Opt<J.J>)
      requires Valid()
      modifies this
      ensures Valid() && Did(r, J.Must(old(Rest()), word, v), Rest())
    {
      ghost var s := Rest();
      var i, same := 0, true;
      while same && i < |word| && pos < |input|
        invariant 0 <= i <= |word| && Valid() && pos == old(pos) + i && i <= |s|
        invariant if same then word[..i] == s[..i] else i > 0 && word[..i - 1] == s[..i - 1] && word[i - 1] != s[i - 1]
        decreases |word| - i
      {
        assert s[i] == input[pos];
        assert s[..i + 1] == s[..i] + [s[i]] && word[..i + 1] == word[..i] + [word[i]];
        same := word[i] == input[pos];
        i, pos := i + 1, pos + 1;
      }
      MustStop(s, word, v, i, same);
      assert Rest() == s[i..];
      r := if i == |word| then Some(v) else None;
    }

    // Values

    /** `readvalue`. */
    method ReadValue() returns (r: Opt<J.J>)
      requires Valid()
      modifies this
      ensures Valid() && Did(r, J.ReadValue(old(Rest())), Rest())
      decreases |input| - pos, 0
    {
      SkipWs();
      if pos == |input| {
        return None;
      }
      RestFront();
      ghost var t := Rest();
      var c := input[pos];
      if c == 'f' {
        r := Must("false", J.False);
      } else if c == 'n' {
        r := Must("null", J.Null);
      } else if c == 't' {
        r := Must("true", J.True);
      } else if c == '{' || c == '[' {
        pos := pos + 1;
        var ns := ReadSeries(c == '{');
        r := if ns.None? then None else Some(if c == '{' then J.Object(ns.v) else J.Array(ns.v));
      } else if c == '"' {
        var s := ReadString();
        r := if s.None? then None else Some(J.Text(s.v));
      } else if c == '-' || J.IsDigit(c) {
        var s := ReadNumber();
        r := if s.None? then None else Some(J.Number(s.v));
      } else {
        r := None;
      }
    }

    method ReadKey() returns (r: Opt<string>)
      requires Valid()
      modifies this
      ensures Valid() && Did(r, J.ReadKey(old(Rest())), Rest())
    {
      r := ReadString();
      if r.None? {
        return;
      }
      SkipWs();
      if pos == |input| || input[pos] != ':' {
        return None;
      }
      RestFront();
      pos := pos + 1;
    }

    /** `readvalue` or `readobjel`. */
    method Element(obj: bool) returns (r: Opt<J.Node>)
      requires Valid()
      modifies this
      ensures Valid() && Did(r, J.Element(old(Rest()), obj), Rest())
      decreases |input| - pos, 1
    {
      var name := J.Anon;
      if obj {
        var k := ReadKey();
        if k.None? {
          return None;
        }
        name := J.Named(k.v);
      }
      var v := ReadValue();
      r := if v.None? then None else Some(J.Node(name, v.v));
    }

    /** One turn of the loop of `readseries`. */
    method SeriesTurn(pv: Growing<Opt<J.Node>>, obj: bool) returns (t: Turn)
      requires Valid() && pv.Valid() && Full(pv.Contents())
      modifies this, pv, pv.p
      ensures Valid() && pv.Valid() && Full(pv.Contents()) && (pv.p == old(pv.p) || fresh(pv.p))
      ensures t.More? ==> |Rest()| < |old(Rest())|
      ensures J.Series(old(Rest()), obj, Nodes(old(pv.Contents())))
              == match t
                 case More => J.Series(Rest(), obj, Nodes(pv.Contents()))
                 case Closed => J.Ok(Nodes(pv.Contents()), Rest())
                 case Bad => J.Fail
      decreases |input| - pos, 2
    {
      SkipWs();
      if pos == |input| {
        return Bad;
      }
      RestFront();
      var c := input[pos];
      if c == ',' {
        if pv.len == 0 {
          return Bad;
        }
        pos := pos + 1;
        return More;
      }
      if c == J.Closer(obj) {
        pos := pos + 1;
        return Closed;
      }
      var x := Element(obj);
      if x.None? {
        return Bad;
      }
      ghost var was := pv.Contents();
      pv.Add(x);
      assert Nodes(pv.Contents()) == Nodes(was) + [x.v];
      return More;
    }

    /** `readseries`, behind the opening bracket. */
    method ReadSeries(obj: bool) returns (r: Opt<seq<J.Node>>)
      requires Valid()
      modifies this
      ensures Valid() && Did(r, J.Series(old(Rest()), obj, []), Rest())
      decreases |input| - pos, 3
    {
      var pv := new Growing<Opt<J.Node>>(None, PV_INITIAL);
      while true
        invariant Valid() && |Rest()| <= |old(Rest())| && fresh(pv) && fresh(pv.p) && pv.Valid() && Full(pv.Contents())
        invariant J.Series(Rest(), obj, Nodes(pv.Contents())) == J.Series(old(Rest()), obj, [])
        decreases |input| - pos
      {
        var t := SeriesTurn(pv, obj);
        if t.Bad? {
          return None;
        }
        if t.Closed? {
          return Some(Nodes(pv.p[..pv.len]));
        }
      }
    }
  }

  /** How a turn of the loop of `readseries` ends. */
  datatype Turn = More | Closed | Bad

  /** Where the loop of `must` stops decides the result. */
  lemma {:induction false} MustStop(s: string, word: string, v: J.J, i: nat, same: bool)
    requires i <= |word| && i <= |s| && (same ==> i == |word| || i == |s|)
    requires if same then word[..i] == s[..i] else i > 0 && word[..i - 1] == s[..i - 1] && word[i - 1] != s[i - 1]
    ensures J.Must(s, word, v) == if i == |word| then J.Ok(v, s[i..]) else J.Fail
  {
    var n := |word| - 1;
    if i == |word| {
      if i > 0 && same {
        assert word[..n] == word[..i][..n] && s[..n] == s[..i][..n];
      }
    }
  }

  predicate Full(ps: seq<Opt<J.Node>>) { forall i :: 0 <= i < |ps| ==> ps[i].Some? }

  /** The nodes before the terminator. */
  function Nodes(ps: seq<Opt<J.Node>>): (r: seq<J.Node>)
    requires Full(ps)
    ensures |r| == |ps|
  {
    seq(|ps|, i requires 0 <= i < |ps| => ps[i].v)
  }

  const TW_INITIAL: nat := 16
  const PV_INITIAL: nat := 8

  lemma {:induction false} DigitsScan(s: string, k: nat)
    requires k <= |s| && (forall i :: 0 <= i < k ==> J.IsDigit(s[i])) && (k < |s| ==> !J.IsDigit(s[k]))
    ensures J.Digits(s) == s[..k]
  {
    if k > 0 {
      DigitsScan(s[1..], k - 1);
      assert s[..k] == [s[0]] + s[1..][..k - 1];
    }
  }

  /** Where the loop of `readstring` stands. */
  datatype Status = Go(esc: bool, hex: nat, x: nat) | Done | Oops

  /** One character of a string. */
  method OneChar(tw: Growing<char>, c: char, st: Status, ghost t: string) returns (st': Status)
    requires tw.Valid() && st.Go? && InHex(st.hex, st.x)
    modifies tw, tw.p
    ensures tw.Valid() && (tw.p == old(tw.p) || fresh(tw.p)) && (st'.Go? ==> InHex(st'.hex, st'.x))
    ensures J.Chars([c] + t, st.esc, st.hex, st.x, old(tw.Contents()))
            == match st'
               case Go(esc, hex, x) => J.Chars(t, esc, hex, x, tw.Contents())
               case Done => J.Ok(J.CString(tw.Contents()), t)
               case Oops => J.Fail
  {
    assert ([c] + t)[1..] == t;
    if st.hex > 0 {
      if !J.IsHex(c) {
        return Oops;
      }
      var x := 16 * st.x + J.HexVal(c);
      if st.hex == 1 {
        AddU(tw, x);
      }
      return Go(false, st.hex - 1, x);
    }
    if st.esc {
      if c == 'u' {
        return Go(false, 4, 0);
      }
      if c in "\"\\/bfnrt" {
        tw.Add(J.Unescaped(c));
        return Go(false, 0, st.x);
      }
      return Oops;
    }
    if c == '"' {
      return Done;
    }
    if c == '\\' {
      return Go(true, 0, st.x);
    }
    if c >= ' ' {
      tw.Add(c);
      return Go(false, 0, st.x);
    }
    return Oops;
  }

  predicate InHex(hex: nat, x: nat) {
    hex <= 4 && (hex == 4 ==> x == 0) && (hex == 3 ==> x < 0x10) && (hex == 2 ==> x < 0x100) && (hex == 1 ==> x < 0x1000)
  }
}
