/** The string functions of the Solo5 bindings that work a word at a time: `memmove` and `strlen`.
    Memory is an array indexed by address. */
module MemLib {
  const WORD: nat := 8

  /** Where the byte at x comes from when n bytes are moved from s to d. */
  function From(d: nat, s: nat, n: nat, x: nat): nat {
    if d <= x < d + n then s + (x - d) else x
  }

  ghost predicate ByteMoved<T>(was: seq<T>, now: seq<T>, d: nat, s: nat, n: nat, x: nat) {
    x < |now| && From(d, s, n, x) < |was| && now[x] == was[From(d, s, n, x)]
  }

  /** The n bytes at d are those that were at s, and no other byte has changed. */
  ghost predicate Moved<T>(was: seq<T>, now: seq<T>, d: nat, s: nat, n: nat) {
    && |now| == |was| && d + n <= |was| && s + n <= |was|
    && forall x {:trigger ByteMoved(was, now, d, s, n, x)} :: 0 <= x < |was| ==> ByteMoved(was, now, d, s, n, x)
  }

  lemma MovedNone<T>(was: seq<T>, d: nat, s: nat)
    requires d <= |was| && s <= |was|
    ensures Moved(was, was, d, s, 0)
  {
  }

  /** One aligned word: all of it is loaded before any of it is stored. */
  method CopyWord<T>(mem: array<T>, d: nat, s: nat, ghost was: seq<T>)
    requires d + WORD <= mem.Length && s + WORD <= mem.Length && was == mem[..]
    modifies mem
    ensures Moved(was, mem[..], d, s, WORD)
  {
    var w := mem[s..s + WORD];
    forall i | d <= i < d + WORD {
      mem[i] := w[i - d];
    }
  }

  method CopyByte<T>(mem: array<T>, d: nat, s: nat, ghost was: seq<T>)
    requires d < mem.Length && s < mem.Length && was == mem[..]
    modifies mem
    ensures Moved(was, mem[..], d, s, 1)
  {
    mem[d] := mem[s];
  }

  /** n bytes more, behind the i already moved; no byte is read after it has been overwritten. */
  lemma MoveMore<T>(was: seq<T>, mid: seq<T>, now: seq<T>, d: nat, s: nat, i: nat, n: nat)
    requires Moved(was, mid, d, s, i) && Moved(mid, now, d + i, s + i, n) && (d <= s || s + i + n <= d)
    ensures Moved(was, now, d, s, i + n)
  {
    var m := i + n;
    forall x | 0 <= x < |was| ensures ByteMoved(was, now, d, s, m, x) {
      var y := From(d + i, s + i, n, x);
      assert ByteMoved(mid, now, d + i, s + i, n, x) && ByteMoved(was, mid, d, s, i, y);
    }
  }

  /** k bytes more, in front of those from offset n + k on already moved. */
  lemma MoveBefore<T>(was: seq<T>, mid: seq<T>, now: seq<T>, d: nat, s: nat, n: nat, k: nat, total: nat)
    requires n + k <= total && s <= d && Moved(was, mid, d + n + k, s + n + k, total - n - k) && Moved(mid, now, d + n, s + n, k)
    ensures Moved(was, now, d + n, s + n, total - n)
  {
    var d', s', m := d + n, s + n, total - n;
    forall x | 0 <= x < |was| ensures ByteMoved(was, now, d', s', m, x) {
      var y := From(d + n, s + n, k, x);
      assert ByteMoved(mid, now, d + n, s + n, k, x) && ByteMoved(was, mid, d + n + k, s + n + k, total - n - k, y);
    }
  }

  /** `memcpy`. */
  method CopyUp<T>(mem: array<T>, d: nat, s: nat, n: nat, ghost was: seq<T>)
    requires d + n <= mem.Length && s + n <= mem.Length && was == mem[..]
    requires d + n <= s || s + n <= d
    modifies mem
    ensures Moved(was, mem[..], d, s, n)
  {
    MovedNone(was, d, s);
    var i := 0;
    while i < n
      invariant 0 <= i <= n && Moved(was, mem[..], d, s, i)
    {
      ghost var mid := mem[..];
      CopyByte(mem, d + i, s + i, mid);
      MoveMore(was, mid, mem[..], d, s, i, 1);
      i := i + 1;
    }
  }

  /** Forwards, for d below s: bytes up to alignment, words, the remaining bytes. */
  method MoveUp<T>(mem: array<T>, d: nat, s: nat, n: nat, ghost was: seq<T>)
    requires d + n <= mem.Length && s + n <= mem.Length && d <= s && was == mem[..]
    modifies mem
    ensures Moved(was, mem[..], d, s, n)
  {
    MovedNone(was, d, s);
    var i := 0;
    if s % WORD == d % WORD {
      while (d + i) % WORD != 0
        invariant 0 <= i <= n && Moved(was, mem[..], d, s, i)
        decreases n - i
      {
        if i == n {
          return;
        }
        i := UpByte(mem, d, s, n, i, was);
      }
      while n - i >= WORD
        invariant 0 <= i <= n && Moved(was, mem[..], d, s, i)
      {
        i := UpWord(mem, d, s, n, i, was);
      }
    }
    while i < n
      invariant 0 <= i <= n && Moved(was, mem[..], d, s, i)
    {
      i := UpByte(mem, d, s, n, i, was);
    }
  }

  method UpByte<T>(mem: array<T>, d: nat, s: nat, n: nat, i: nat, ghost was: seq<T>) returns (i': nat)
    requires d + n <= mem.Length && s + n <= mem.Length && d <= s && i < n && Moved(was, mem[..], d, s, i)
    modifies mem
    ensures i' == i + 1 && Moved(was, mem[..], d, s, i')
  {
    ghost var mid := mem[..];
    CopyByte(mem, d + i, s + i, mid);
    MoveMore(was, mid, mem[..], d, s, i, 1);
    i' := i + 1;
  }

  method UpWord<T>(mem: array<T>, d: nat, s: nat, n: nat, i: nat, ghost was: seq<T>) returns (i': nat)
    requires d + n <= mem.Length && s + n <= mem.Length && d <= s && i + WORD <= n && Moved(was, mem[..], d, s, i)
    modifies mem
    ensures i' == i + WORD && Moved(was, mem[..], d, s, i')
  {
    ghost var mid := mem[..];
    CopyWord(mem, d + i, s + i, mid);
    MoveMore(was, mid, mem[..], d, s, i, WORD);
    i' := i + WORD;
  }

  /** Backwards, for d above s; the alignment is that of the end. */
  method MoveDown<T>(mem: array<T>, d: nat, s: nat, total: nat, ghost was: seq<T>)
    requires d + total <= mem.Length && s + total <= mem.Length && s <= d && was == mem[..]
    modifies mem
    ensures Moved(was, mem[..], d, s, total)
  {
    MovedNone(was, d + total, s + total);
    var n := total;
    if s % WORD == d % WORD {
      while (d + n) % WORD != 0
        invariant 0 <= n <= total && Moved(was, mem[..], d + n, s + n, total - n)
        decreases n
      {
        if n == 0 {
          return;
        }
        n := DownByte(mem, d, s, total, n, was);
      }
      while n >= WORD
        invariant 0 <= n <= total && Moved(was, mem[..], d + n, s + n, total - n)
      {
        n := DownWord(mem, d, s, total, n, was);
      }
    }
    while n > 0
      invariant 0 <= n <= total && Moved(was, mem[..], d + n, s + n, total - n)
    {
      n := DownByte(mem, d, s, total, n, was);
    }
  }

  method DownByte<T>(mem: array<T>, d: nat, s: nat, total: nat, n: nat, ghost was: seq<T>) returns (n': nat)
    requires d + total <= mem.Length && s + total <= mem.Length && s <= d && 0 < n <= total
    requires Moved(was, mem[..], d + n, s + n, total - n)
    modifies mem
    ensures n' == n - 1 && Moved(was, mem[..], d + n', s + n', total - n')
  {
    ghost var mid := mem[..];
    n' := n - 1;
    CopyByte(mem, d + n', s + n', mid);
    MoveBefore(was, mid, mem[..], d, s, n', 1, total);
  }

  method DownWord<T>(mem: array<T>, d: nat, s: nat, total: nat, n: nat, ghost was: seq<T>) returns (n': nat)
    requires d + total <= mem.Length && s + total <= mem.Length && s <= d && WORD <= n <= total
    requires Moved(was, mem[..], d + n, s + n, total - n)
    modifies mem
    ensures n' == n - WORD && Moved(was, mem[..], d + n', s + n', total - n')
  {
    ghost var mid := mem[..];
    n' := n - WORD;
    CopyWord(mem, d + n', s + n', mid);
    MoveBefore(was, mid, mem[..], d, s, n', WORD, total);
  }

  /** `memmove`: for every overlap and alignment. */
  method Memmove<T>(mem: array<T>, d: nat, s: nat, n: nat)
    requires d + n <= mem.Length && s + n <= mem.Length
    modifies mem
    ensures Moved(old(mem[..]), mem[..], d, s, n)
  {
    if d == s {
      return;
    }
    if s + n <= d || d + n <= s {
      CopyUp(mem, d, s, n, mem[..]);
    } else if d < s {
      MoveUp(mem, d, s, n, mem[..]);
    } else {
      MoveDown(mem, d, s, n, mem[..]);
    }
  }

  // strlen

  const ONES: bv64 := 0x0101_0101_0101_0101
  const HIGHS: bv64 := 0x8080_8080_8080_8080

  function HasZero(x: bv64): bv64 { (x - ONES) & !x & HIGHS }

  /** The word made of eight bytes, lowest first. */
  function Word(b: seq<bv8>): bv64
    requires |b| == 8
  {
    (b[0] as bv64) | ((b[1] as bv64) << 8) | ((b[2] as bv64) << 16) | ((b[3] as bv64) << 24)
    | ((b[4] as bv64) << 32) | ((b[5] as bv64) << 40) | ((b[6] as bv64) << 48) | ((b[7] as bv64) << 56)
  }

  lemma HasZeroBytes(a: bv8, b: bv8, c: bv8, d: bv8, e: bv8, f: bv8, g: bv8, h: bv8)
    ensures HasZero(Word([a, b, c, d, e, f, g, h])) != 0 <==>
            a == 0 || b == 0 || c == 0 || d == 0 || e == 0 || f == 0 || g == 0 || h == 0
  {
  }

  /** The trick is exact: it tells whether any byte of the word is zero. */
  lemma HasZeroExact(b: seq<bv8>)
    requires |b| == 8
    ensures HasZero(Word(b)) != 0 <==> exists i :: 0 <= i < 8 && b[i] == 0
  {
    HasZeroBytes(b[0], b[1], b[2], b[3], b[4], b[5], b[6], b[7]);
    assert b == [b[0], b[1], b[2], b[3], b[4], b[5], b[6], b[7]];
  }

  /** `strlen` of the string at s: a terminator exists, and memory ends on a word boundary. */
  method Strlen(mem: array<bv8>, start: nat) returns (len: nat)
    requires mem.Length % WORD == 0 && exists z :: start <= z < mem.Length && mem[z] == 0
    ensures start + len < mem.Length && mem[start + len] == 0
    ensures forall i :: start <= i < start + len ==> mem[i] != 0
  {
    ghost var z :| start <= z < mem.Length && mem[z] == 0;
    var s := start;
    while s % WORD != 0
      invariant start <= s <= z && forall i :: start <= i < s ==> mem[i] != 0
      decreases mem.Length - s
    {
      if mem[s] == 0 {
        return s - start;
      }
      s := s + 1;
    }
    while HasZero(Word(mem[s..s + WORD])) == 0
      invariant start <= s <= z && s % WORD == 0 && s + WORD <= mem.Length && forall i :: start <= i < s ==> mem[i] != 0
      decreases mem.Length - s
    {
      var w := mem[s..s + WORD];
      HasZeroExact(w);
      forall i | s <= i < s + WORD ensures mem[i] != 0 {
        assert w[i - s] == mem[i];
      }
      s := s + WORD;
    }
    while mem[s] != 0
      invariant start <= s <= z && forall i :: start <= i < s ==> mem[i] != 0
      decreases mem.Length - s
    {
      s := s + 1;
    }
    len := s - start;
  }
}
