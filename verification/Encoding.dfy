/** The byte format of is_buffering.h and is_buffering.cpp, on a little-endian machine: what the
    << operators append and what the >> operators make of it. */
module Encoding {
  import opened Arithmetic
  import opened SimStates

  // ----- Integers ------------------------------------------------------------------------------------

  function Pow256(w: nat): (p: nat)
    ensures p >= 1
  {
    if w == 0 then 1 else 256 * Pow256(w - 1)
  }

  function LE(w: nat, x: nat): (b: seq<byte>)
    ensures |b| == w
  {
    if w == 0 then [] else [x % 256] + LE(w - 1, x / 256)
  }

  function FromLE(b: seq<byte>): (x: nat)
    ensures x < Pow256(|b|)
  {
    if b == [] then 0 else b[0] + 256 * FromLE(b[1..])
  }

  lemma {:induction false} FromLEofLE(w: nat, x: nat)
    requires x < Pow256(w)
    ensures FromLE(LE(w, x)) == x
  {
    if w > 0 { FromLEofLE(w - 1, x / 256); }
  }

  lemma {:induction false} LEofFromLE(b: seq<byte>)
    ensures LE(|b|, FromLE(b)) == b
  {
    if b != [] {
      LEofFromLE(b[1..]);
      Digits(b[0], FromLE(b[1..]));
    }
  }

  lemma Digits(d: byte, rest: nat)
    ensures (d + 256 * rest) % 256 == d && (d + 256 * rest) / 256 == rest
  {
  }

  /** The k-th byte is the k-th digit to base 256, the lowest first. */
  lemma {:induction false} DigitAt(w: nat, x: nat, k: nat)
    requires k < w
    ensures LE(w, x)[k] == x / Pow256(k) % 256
  {
    if k > 0 {
      DigitAt(w - 1, x / 256, k - 1);
      DivTwice(x, Pow256(k - 1));
    }
  }

  lemma DivTwice(x: nat, p: nat)
    requires p >= 1
    ensures x / 256 / p == x / (256 * p)
  {
    var q := x / 256;
    assert x == 256 * q + x % 256 && q == p * (q / p) + q % p;
    var r := 256 * (q % p) + x % 256;
    assert 256 * q == 256 * (p * (q / p)) + 256 * (q % p);
    assert 256 * (p * (q / p)) == (q / p) * (256 * p);
    DivMod(x, 256 * p, q / p, r);
  }

  /** 32 and 64 bits, byte by byte. */
  lemma WordBytes(x: nat)
    ensures LE(4, x) == [x % 0x100, x / 0x100 % 0x100, x / 0x1_0000 % 0x100, x / 0x100_0000 % 0x100]
    ensures LE(8, x) == LE(4, x) + [x / 0x1_0000_0000 % 0x100, x / 0x100_0000_0000 % 0x100,
                                    x / 0x1_0000_0000_0000 % 0x100, x / 0x100_0000_0000_0000 % 0x100]
  {
    var four, eight := LE(4, x), LE(8, x);
    Powers();
    forall k: nat | k < 8 ensures eight[k] == x / Pow256(k) % 256 && (k < 4 ==> four[k] == x / Pow256(k) % 256) {
      DigitAt(8, x, k);
      if k < 4 { DigitAt(4, x, k); }
    }
    hide LE, Pow256;
  }

  lemma Powers()
    ensures Pow256(0) == 1 && Pow256(1) == 0x100 && Pow256(2) == 0x1_0000 && Pow256(3) == 0x100_0000
    ensures Pow256(4) == 0x1_0000_0000 && Pow256(5) == 0x100_0000_0000
    ensures Pow256(6) == 0x1_0000_0000_0000 && Pow256(7) == 0x100_0000_0000_0000
  {
    assert Pow256(1) == 256 * Pow256(0);
    assert Pow256(2) == 256 * Pow256(1);
    assert Pow256(3) == 256 * Pow256(2);
    assert Pow256(4) == 256 * Pow256(3);
    assert Pow256(5) == 256 * Pow256(4);
    assert Pow256(6) == 256 * Pow256(5);
    assert Pow256(7) == 256 * Pow256(6);
  }

  lemma Pow256Of8()
    ensures Pow256(8) == U64 && Pow256(4) == U32
  {
    assert Pow256(2) == 0x1_0000;
    assert Pow256(4) == 0x1_0000_0000;
    assert Pow256(6) == 0x1_0000_0000_0000;
  }

  // ----- Typed values ---------------------------------------------------------------------------------

  /** The types that the templates are instantiated with: words of w bytes, strings, vectors and arrays.
      The array writer is spelled >>, so `<<` takes the generic overload and writes an array as one
      block of memory; that is meaningful only for element types that are themselves plain memory. */
  datatype Ty = Word(w: nat) | Str | Vec(elem: Ty) | Arr(n: nat, elem: Ty)

  datatype Val = Num(w: nat, x: nat) | Text(chars: seq<byte>) | List(vals: seq<Val>) | Tuple(vals: seq<Val>)

  predicate Plain(ty: Ty) { ty.Word? || (ty.Arr? && Plain(ty.elem)) }

  predicate WellFormed(ty: Ty) {
    match ty
    case Word(_) => true
    case Str => true
    case Vec(e) => WellFormed(e)
    case Arr(_, e) => Plain(e)
  }

  ghost predicate HasType(v: Val, ty: Ty) {
    match ty
    case Word(w) => v.Num? && v.w == w && v.x < Pow256(w)
    case Str => v.Text? && |v.chars| < U64
    case Vec(e) => v.List? && |v.vals| < U64 && forall i :: 0 <= i < |v.vals| ==> HasType(v.vals[i], e)
    case Arr(n, e) => v.Tuple? && |v.vals| == n && forall i :: 0 <= i < |v.vals| ==> HasType(v.vals[i], e)
  }

  /** The memory of a plain value: elements side by side. */
  function Memory(v: Val): seq<byte> {
    match v
    case Num(w, x) => LE(w, x)
    case Tuple(vs) => Memories(vs)
    case _ => []
  }

  function Memories(vs: seq<Val>): seq<byte> {
    if vs == [] then [] else Memory(vs[0]) + Memories(vs[1..])
  }

  /** What `<<` appends. */
  function Written(v: Val): seq<byte> {
    match v
    case Num(_, _) => Memory(v)
    case Text(s) => LE(8, |s|) + s
    case List(vs) => LE(8, |vs|) + WrittenAll(vs)
    case Tuple(_) => Memory(v)
  }

  function WrittenAll(vs: seq<Val>): seq<byte> {
    if vs == [] then [] else Written(vs[0]) + WrittenAll(vs[1..])
  }

  /** What `>>` reads, and the bytes after it; None when the buffer runs out of bytes. */
  function Read(ty: Ty, b: seq<byte>): Option<(Val, seq<byte>)>
    decreases ty, 0
  {
    match ty
    case Word(w) => if w <= |b| then Some((Num(w, FromLE(b[..w])), b[w..])) else None
    case Str =>
      if |b| < 8 then None
      else
        var n := FromLE(b[..8]);
        if n <= |b| - 8 then Some((Text(b[8..8 + n]), b[8 + n..])) else None
    case Vec(e) =>
      if |b| < 8 then None
      else
        var r := ReadMany(e, FromLE(b[..8]), b[8..]);
        if r.Some? then Some((List(r.value.0), r.value.1)) else None
    case Arr(n, e) =>
      var r := ReadMany(e, n, b);
      if r.Some? then Some((Tuple(r.value.0), r.value.1)) else None
  }

  function ReadMany(ty: Ty, n: nat, b: seq<byte>): Option<(seq<Val>, seq<byte>)>
    decreases ty, n + 1
  {
    if n == 0 then Some(([], b))
    else
      var first := Read(ty, b);
      if first.None? then None
      else
        var rest := ReadMany(ty, n - 1, first.value.1);
        if rest.None? then None else Some(([first.value.0] + rest.value.0, rest.value.1))
  }

  // ----- Reading undoes writing ----------------------------------------------------------------------------

  lemma {:induction false} PlainMemory(v: Val, ty: Ty)
    requires HasType(v, ty) && Plain(ty)
    ensures Written(v) == Memory(v)
  {
  }

  /** A block of memory is what its elements would be, one after the other. */
  lemma {:induction false} BlockIsElements(vs: seq<Val>, ty: Ty)
    requires Plain(ty) && forall i :: 0 <= i < |vs| ==> HasType(vs[i], ty)
    ensures Memories(vs) == WrittenAll(vs)
  {
    if vs != [] {
      PlainMemory(vs[0], ty);
      BlockIsElements(vs[1..], ty);
    }
  }

  lemma {:induction false} SizeRead(n: nat, b: seq<byte>)
    requires n < U64
    ensures |LE(8, n) + b| >= 8 && FromLE((LE(8, n) + b)[..8]) == n && (LE(8, n) + b)[8..] == b
  {
    Pow256Of8();
    FromLEofLE(8, n);
    assert (LE(8, n) + b)[..8] == LE(8, n);
  }

  /** Reading back with the same type gives the value and leaves what follows it untouched. */
  lemma {:induction false} ReadWritten(v: Val, ty: Ty, tail: seq<byte>)
    requires WellFormed(ty) && HasType(v, ty)
    ensures Read(ty, Written(v) + tail) == Some((v, tail))
    decreases ty, 0
  {
    match ty {
      case Word(w) => ReadWord(v, w, tail);
      case Str => ReadText(v, tail);
      case Vec(e) =>
        hide LE, FromLE, WrittenAll, ReadMany;
        SizeRead(|v.vals|, WrittenAll(v.vals) + tail);
        Regroup(LE(8, |v.vals|), WrittenAll(v.vals), tail);
        ReadWrittenAll(v.vals, e, tail);
      case Arr(n, e) =>
        hide WrittenAll, ReadMany;
        BlockIsElements(v.vals, e);
        PlainIsWellFormed(e);
        ReadWrittenAll(v.vals, e, tail);
    }
  }

  lemma Regroup(a: seq<byte>, b: seq<byte>, c: seq<byte>)
    ensures (a + b) + c == a + (b + c)
  {
  }

  lemma ReadWord(v: Val, w: nat, tail: seq<byte>)
    requires HasType(v, Word(w))
    ensures Read(Word(w), Written(v) + tail) == Some((v, tail))
  {
    FromLEofLE(w, v.x);
    hide LE, FromLE;
    assert (Written(v) + tail)[..w] == Written(v) && (Written(v) + tail)[w..] == tail;
  }

  lemma ReadText(v: Val, tail: seq<byte>)
    requires HasType(v, Str)
    ensures Read(Str, Written(v) + tail) == Some((v, tail))
  {
    hide LE, FromLE;
    var s := v.chars;
    SizeRead(|s|, s + tail);
    Regroup(LE(8, |s|), s, tail);
    assert (LE(8, |s|) + (s + tail))[8..][..|s|] == s && (LE(8, |s|) + (s + tail))[8..][|s|..] == tail;
    Skip(LE(8, |s|) + (s + tail), 8, |s|);
  }

  lemma Skip(s: seq<byte>, a: nat, b: nat)
    requires a + b <= |s|
    ensures s[a..][b..] == s[a + b..] && s[a..][..b] == s[a..a + b]
  {
  }

  lemma PlainIsWellFormed(ty: Ty)
    requires Plain(ty)
    ensures WellFormed(ty)
  {
  }

  lemma {:induction false} ReadWrittenAll(vs: seq<Val>, ty: Ty, tail: seq<byte>)
    requires WellFormed(ty) && forall i :: 0 <= i < |vs| ==> HasType(vs[i], ty)
    ensures ReadMany(ty, |vs|, WrittenAll(vs) + tail) == Some((vs, tail))
    decreases ty, |vs| + 1
  {
    if vs == [] {
      assert WrittenAll(vs) + tail == tail;
    } else {
      hide Read, Written, HasType, WellFormed;
      Regroup(Written(vs[0]), WrittenAll(vs[1..]), tail);
      ReadWritten(vs[0], ty, WrittenAll(vs[1..]) + tail);
      ReadWrittenAll(vs[1..], ty, tail);
      assert [vs[0]] + vs[1..] == vs;
    }
  }

  /** And reading accepts nothing else: whatever is read is what writing the value would have put there. */
  lemma {:induction false} WrittenRead(ty: Ty, b: seq<byte>)
    requires WellFormed(ty) && Read(ty, b).Some?
    ensures HasType(Read(ty, b).value.0, ty)
    ensures b == Written(Read(ty, b).value.0) + Read(ty, b).value.1
    decreases ty, 0
  {
    var v, rest := Read(ty, b).value.0, Read(ty, b).value.1;
    Pow256Of8();
    match ty {
      case Word(w) => LEofFromLE(b[..w]);
      case Str =>
        LEofFromLE(b[..8]);
        assert b == b[..8] + b[8..8 + |v.chars|] + rest;
      case Vec(e) =>
        LEofFromLE(b[..8]);
        WrittenReadMany(e, FromLE(b[..8]), b[8..]);
        assert b == b[..8] + b[8..];
      case Arr(n, e) =>
        PlainIsWellFormed(e);
        WrittenReadMany(e, n, b);
        BlockIsElements(v.vals, e);
    }
  }

  lemma {:induction false} WrittenReadMany(ty: Ty, n: nat, b: seq<byte>)
    requires WellFormed(ty) && ReadMany(ty, n, b).Some?
    ensures var r := ReadMany(ty, n, b).value;
            |r.0| == n && (forall i :: 0 <= i < n ==> HasType(r.0[i], ty)) && b == WrittenAll(r.0) + r.1
    decreases ty, n + 1
  {
    if n > 0 {
      hide Read, Written, HasType, WellFormed;
      WrittenRead(ty, b);
      var first := Read(ty, b).value;
      WrittenReadMany(ty, n - 1, first.1);
      var rest := ReadMany(ty, n - 1, first.1).value;
      assert ([first.0] + rest.0)[1..] == rest.0;
    }
  }

  /** A value that has not arrived completely is never taken for one that has. */
  lemma TruncatedFails(v: Val, ty: Ty, k: nat)
    requires WellFormed(ty) && HasType(v, ty) && k < |Written(v)|
    ensures Read(ty, Written(v)[..k]) == None
  {
    hide Read, Written, HasType, WellFormed;
    var cut := Written(v)[..k];
    if Read(ty, cut).Some? {
      WrittenRead(ty, cut);
      var r := Read(ty, cut).value;
      assert Written(v) == Written(r.0) + (r.1 + Written(v)[k..]);
      ReadWritten(r.0, ty, r.1 + Written(v)[k..]);
      assert Written(v) == Written(v) + [];
      ReadWritten(v, ty, []);
    }
  }

  /** Any sequence of values of any types, written one after the other and read back with the same types. */
  function ReadTypes(tys: seq<Ty>, b: seq<byte>): (r: Option<(seq<Val>, seq<byte>)>)
    ensures r.Some? ==> |r.value.0| == |tys|
  {
    if tys == [] then Some(([], b))
    else
      var first := Read(tys[0], b);
      if first.None? then None
      else
        var rest := ReadTypes(tys[1..], first.value.1);
        if rest.None? then None else Some(([first.value.0] + rest.value.0, rest.value.1))
  }

  lemma {:induction false} ReadWrittenSequence(vs: seq<Val>, tys: seq<Ty>, tail: seq<byte>)
    requires |vs| == |tys| && forall i :: 0 <= i < |vs| ==> WellFormed(tys[i]) && HasType(vs[i], tys[i])
    ensures ReadTypes(tys, WrittenAll(vs) + tail) == Some((vs, tail))
  {
    if vs == [] {
      assert WrittenAll(vs) + tail == tail;
    } else {
      hide Read, Written, HasType, WellFormed;
      Regroup(Written(vs[0]), WrittenAll(vs[1..]), tail);
      ReadWritten(vs[0], tys[0], WrittenAll(vs[1..]) + tail);
      ReadWrittenSequence(vs[1..], tys[1..], tail);
      assert [vs[0]] + vs[1..] == vs;
    }
  }

  // ----- Where things are ------------------------------------------------------------------------------------------

  /** A string is its length in eight bytes and its characters; a vector of numbers is its length in eight bytes and the
      numbers side by side; an array has no length in front. */
  lemma SizesInFront(s: seq<byte>, xs: seq<nat>, w: nat, i: nat)
    requires i < |xs|
    ensures var vals := seq(|xs|, k requires 0 <= k < |xs| => Num(w, xs[k]));
            && Written(Text(s)) == LE(8, |s|) + s
            && |Written(List(vals))| == 8 + w * |xs| && |Written(Tuple(vals))| == w * |xs|
            && Written(List(vals))[..8] == LE(8, |xs|) && Written(List(vals))[8..] == Written(Tuple(vals))
            && 0 <= w * i <= w * i + w <= w * |xs|
            && Written(Tuple(vals))[w * i..w * i + w] == LE(w, xs[i])
  {
    var vals := seq(|xs|, k requires 0 <= k < |xs| => Num(w, xs[k]));
    SameBlock(vals);
    hide LE;
    PlaceInBlock(xs, w, i);
  }

  lemma {:induction false} SameBlock(vals: seq<Val>)
    requires forall k :: 0 <= k < |vals| ==> vals[k].Num?
    ensures Memories(vals) == WrittenAll(vals)
  {
    if vals != [] { SameBlock(vals[1..]); }
  }

  lemma {:induction false} PlaceInBlock(xs: seq<nat>, w: nat, i: nat)
    requires i < |xs|
    ensures var block := Memories(seq(|xs|, k requires 0 <= k < |xs| => Num(w, xs[k])));
            && |block| == w * |xs| && 0 <= w * i <= w * i + w <= w * |xs| && block[w * i..w * i + w] == LE(w, xs[i])
  {
    var vals := seq(|xs|, k requires 0 <= k < |xs| => Num(w, xs[k]));
    var rest := xs[1..];
    assert vals[1..] == seq(|rest|, k requires 0 <= k < |rest| => Num(w, rest[k]));
    hide LE;
    assert Memories(vals) == LE(w, xs[0]) + Memories(vals[1..]);
    var more := Memories(vals[1..]);
    assert |rest| == 0 ==> vals[1..] == [];
    hide Memories;
    if i == 0 {
      if |rest| > 0 { PlaceInBlock(rest, w, 0); }
      NextPlace(LE(w, xs[0]), more, w, |rest|, 0);
    } else {
      PlaceInBlock(rest, w, i - 1);
      NextPlace(LE(w, xs[0]), more, w, |rest|, i);
    }
  }

  lemma NextPlace(first: seq<byte>, more: seq<byte>, w: nat, n: nat, i: nat)
    requires |first| == w && i <= n && |more| == w * n
    ensures |first + more| == w * (n + 1) && 0 <= w * i <= w * i + w <= w * (n + 1)
    ensures i == 0 ==> (first + more)[w * i..w * i + w] == first
    ensures i > 0 ==> 0 <= w * (i - 1) <= w * (i - 1) + w <= w * n && (first + more)[w * i..w * i + w] == more[w * (i - 1)..w * (i - 1) + w]
  {
    assert w * (n + 1) == w + w * n;
    ProductGrows(w, w, i, n);
    if i > 0 {
      assert w * i == w + w * (i - 1);
      ProductGrows(w, w, 0, i - 1);
      Later(first, more, w * (i - 1), w);
    }
  }

  lemma Later(first: seq<byte>, more: seq<byte>, at: nat, n: nat)
    requires at + n <= |more|
    ensures (first + more)[|first| + at..|first| + at + n] == more[at..at + n]
  {
  }
}
