/** The two buffers of is_buffering.cpp and the operators of is_buffering.h on them. */
module Buffering {
  import opened SimStates
  import opened Sums
  import opened Encoding

  // ----- Growth --------------------------------------------------------------------------------------

  /** Allocated bytes, bytes written, and bytes moved by all resizes so far. */
  datatype Usage = Usage(capacity: nat, size: nat, moved: nat)

  /** A write of n bytes: when they do not fit, the buffer grows by half or by n, whichever is more. */
  function Wrote(u: Usage, n: nat): Usage {
    if u.size + n <= u.capacity then u.(size := u.size + n)
    else
      var half := (3 * u.capacity + 1) / 2;
      Usage(if half >= u.capacity + n then half else u.capacity + n, u.size + n, u.moved + u.capacity)
  }

  predicate Amortised(u: Usage, initial: nat) {
    && u.size <= u.capacity <= (if initial >= 2 * u.size then initial else 2 * u.size)
    && u.moved <= 2 * u.capacity && u.moved <= 3 * u.size
  }

  lemma WroteAmortised(u: Usage, n: nat, initial: nat)
    requires Amortised(u, initial)
    ensures Amortised(Wrote(u, n), initial)
  {
  }

  lemma WroteSize(u: Usage, n: nat)
    ensures Wrote(u, n).size == u.size + n
  {
  }

  lemma EnoughRoom(u: Usage, n: nat, initial: nat)
    requires Amortised(u, initial)
    ensures u.size <= u.capacity && u.size + n <= Wrote(u, n).capacity
  {
  }

  /** The new capacity is the least that is half as large again and has the data's size more. */
  lemma GrownBy(u: Usage, n: nat)
    ensures var c := Wrote(u, n).capacity;
            if u.size + n <= u.capacity then c == u.capacity
            else 2 * c >= 3 * u.capacity && c >= u.capacity + n && (2 * (c - 1) < 3 * u.capacity || c == u.capacity + n)
  {
  }

  function AfterWrites(u: Usage, sizes: seq<nat>): Usage
    decreases sizes
  {
    if sizes == [] then u else AfterWrites(Wrote(u, sizes[0]), sizes[1..])
  }

  /** Over any run of writes the bytes moved by resizing stay below three times the bytes written, and the
      allocation below twice that, or what it was to begin with. */
  lemma {:induction false} GrowthIsAmortised(initial: nat, sizes: seq<nat>)
    ensures var u := AfterWrites(Usage(initial, 0, 0), sizes);
            && u.size == Sum(sizes) <= u.capacity
            && u.capacity <= (if initial >= 2 * u.size then initial else 2 * u.size)
            && u.moved <= 3 * u.size
  {
    WritesFrom(initial, Usage(initial, 0, 0), sizes);
  }

  lemma {:induction false} WritesFrom(initial: nat, u: Usage, sizes: seq<nat>)
    requires Amortised(u, initial)
    ensures Amortised(AfterWrites(u, sizes), initial) && AfterWrites(u, sizes).size == u.size + Sum(sizes)
    decreases sizes
  {
    hide Amortised, Wrote;
    WroteSize(u, if sizes == [] then 0 else sizes[0]);
    if sizes != [] {
      WroteAmortised(u, sizes[0], initial);
      WritesFrom(initial, Wrote(u, sizes[0]), sizes[1..]);
    }
  }

  class WriteBuffer {
    var end: nat
    var buffer: array<byte>

    /** The capacity asked for at construction, and the bytes moved by all resizes since. */
    ghost var initial: nat
    ghost var moved: nat

    ghost function Use(): Usage reads this { Usage(buffer.Length, end, moved) }

    ghost predicate Valid() reads this { Amortised(Use(), initial) }

    ghost function Contents(): seq<byte> reads this, buffer requires end <= buffer.Length { buffer[..end] }

    constructor (capacity: nat)
      ensures Valid() && fresh(buffer) && Contents() == [] && initial == capacity && Use() == Usage(capacity, 0, 0)
    {
      end, buffer := 0, new byte[capacity](_ => 0);
      initial, moved := capacity, 0;
    }

    method Resize(capacity: nat)
      requires end <= buffer.Length <= capacity
      modifies this
      ensures fresh(buffer) && buffer.Length == capacity && moved == old(moved + buffer.Length)
      ensures end == old(end) && Contents() == old(Contents()) && initial == old(initial)
    {
      var larger := new byte[capacity](_ => 0);
      forall i | 0 <= i < buffer.Length { larger[i] := buffer[i]; }
      assert larger[..end] == buffer[..end];
      moved := moved + buffer.Length;
      buffer := larger;
    }

    /** std::memcpy to the end. */
    method Store(data: seq<byte>)
      requires end + |data| <= buffer.Length
      modifies this`end, buffer
      ensures end == old(end) + |data| && Contents() == old(Contents()) + data
    {
      forall i | 0 <= i < |data| { buffer[end + i] := data[i]; }
      assert buffer[..end + |data|] == buffer[..end] + buffer[end..end + |data|];
      end := end + |data|;
    }

    /** Appends. A buffer that is too small becomes half as large again, rounded up, or larger by the data if that is more. */
    method Write(data: seq<byte>)
      requires Valid()
      modifies this, buffer
      ensures Valid() && (buffer == old(buffer) || fresh(buffer))
      ensures Contents() == old(Contents()) + data && initial == old(initial)
      ensures Use() == Wrote(old(Use()), |data|)
    {
      WroteAmortised(Use(), |data|, initial);
      EnoughRoom(Use(), |data|, initial);
      hide Amortised;
      if end + |data| > buffer.Length {
        var half := (3 * buffer.Length + 1) / 2;
        Resize(if half >= buffer.Length + |data| then half else buffer.Length + |data|);
      }
      Store(data);
    }

    /** `<<` for a value of any of the types: a size and the elements one by one for a vector, a size and
        the characters for a string, and one block of memory for everything else. */
    method Put(v: Val)
      requires Valid()
      modifies this, buffer
      ensures Valid() && (buffer == old(buffer) || fresh(buffer))
      ensures Contents() == old(Contents()) + Written(v) && initial == old(initial)
      decreases v
    {
      match v {
        case Text(s) =>
          Write(LE(8, |s|));
          Write(s);
          Regroup(old(Contents()), LE(8, |s|), s);
        case List(vals) =>
          Write(LE(8, |vals|));
          ghost var head := Contents();
          for i := 0 to |vals|
            invariant Valid() && (buffer == old(buffer) || fresh(buffer)) && initial == old(initial)
            invariant Contents() == head + WrittenAll(vals[..i])
          {
            WrittenAllSnoc(vals, i);
            Put(vals[i]);
            Regroup(head, WrittenAll(vals[..i]), Written(vals[i]));
          }
          WrittenAllSnoc(vals, |vals|);
          Regroup(old(Contents()), LE(8, |vals|), WrittenAll(vals));
        case _ =>
          Write(Memory(v));
      }
    }
  }

  lemma {:induction false} WrittenAllSnoc(vs: seq<Val>, i: nat)
    requires i <= |vs|
    ensures i < |vs| ==> WrittenAll(vs[..i + 1]) == WrittenAll(vs[..i]) + Written(vs[i])
    ensures WrittenAll(vs[..|vs|]) == WrittenAll(vs)
  {
    assert vs[..|vs|] == vs;
    if i < |vs| {
      assert vs[..i + 1][1..] == vs[1..][..i];
      if i > 0 {
        assert vs[..i][1..] == vs[1..][..i-1];
        WrittenAllSnoc(vs[1..], i - 1);
      }
    }
  }

  class ReadBuffer {
    var begin: nat
    var buffer: array<byte>

    ghost predicate Valid() reads this { begin <= buffer.Length }

    ghost function Rest(): seq<byte> reads this, buffer requires Valid() { buffer[begin..] }

    constructor (bytes: seq<byte>)
      ensures Valid() && fresh(buffer) && Rest() == bytes && begin == 0
    {
      begin, buffer := 0, new byte[|bytes|](i requires 0 <= i < |bytes| => bytes[i]);
    }

    /** The next n bytes, or, if there are not that many, an error and no movement. */
    method Read(n: nat) returns (r: Option<seq<byte>>)
      requires Valid()
      modifies this`begin
      ensures Valid()
      ensures n <= old(|Rest()|) ==> r == Some(old(Rest())[..n]) && Rest() == old(Rest())[n..]
      ensures n > old(|Rest()|) ==> r == None && begin == old(begin)
    {
      if begin + n > buffer.Length {
        return None;
      }
      assert buffer[begin..][..n] == buffer[begin..begin + n] && buffer[begin..][n..] == buffer[begin + n..];
      r := Some(buffer[begin..begin + n]);
      begin := begin + n;
    }

    /** `>>` for a value of any of the types. On success the cursor has moved over exactly the bytes that
        `<<` writes for the value; a failed read leaves it somewhere inside the buffer. */
    method Get(ty: Ty) returns (r: Option<Val>)
      requires Valid() && WellFormed(ty)
      modifies this`begin
      ensures Valid()
      ensures Encoding.Read(ty, old(Rest())) == (if r.Some? then Some((r.value, Rest())) else None)
      ensures r.Some? ==> HasType(r.value, ty) && old(Rest()) == Written(r.value) + Rest()
      decreases ty, 0
    {
      ghost var b := Rest();
      match ty {
        case Word(w) =>
          var m := Read(w);
          r := if m.Some? then Some(Num(w, FromLE(m.value))) else None;
        case Str =>
          var size := Read(8);
          if size.None? {
            return None;
          }
          var n := FromLE(size.value);
          if n <= |b| - 8 { Skip(b, 8, n); }
          hide FromLE, LE;
          var chars := Read(n);
          r := if chars.Some? then Some(Text(chars.value)) else None;
        case Vec(e) =>
          var size := Read(8);
          if size.None? {
            return None;
          }
          var vals := GetMany(e, FromLE(size.value));
          r := if vals.Some? then Some(List(vals.value)) else None;
        case Arr(n, e) =>
          PlainIsWellFormed(e);
          var vals := GetMany(e, n);
          r := if vals.Some? then Some(Tuple(vals.value)) else None;
      }
      if r.Some? { WrittenRead(ty, b); }
    }

    /** The loops over the elements of a vector or an array. */
    method GetMany(ty: Ty, n: nat) returns (r: Option<seq<Val>>)
      requires Valid() && WellFormed(ty)
      modifies this`begin
      ensures Valid()
      ensures ReadMany(ty, n, old(Rest())) == (if r.Some? then Some((r.value, Rest())) else None)
      decreases ty, 1
    {
      hide ReadMany, Encoding.Read, HasType, Written;
      var vals: seq<Val> := [];
      ghost var b := Rest();
      NoneYet(ReadMany(ty, n, b));
      for i := 0 to n
        invariant Valid() && |vals| == i
        invariant ReadMany(ty, n, b) == Then(vals, ReadMany(ty, n - i, Rest()))
      {
        OneMore(vals, ty, n - i, Rest());
        var v := Get(ty);
        if v.None? {
          return None;
        }
        vals := vals + [v.value];
      }
      ReadNone(ty, Rest());
      assert vals + [] == vals;
      r := Some(vals);
    }
  }

  /** Elements read earlier, in front of those read later. */
  function Then(vals: seq<Val>, r: Option<(seq<Val>, seq<byte>)>): Option<(seq<Val>, seq<byte>)> {
    if r.None? then None else Some((vals + r.value.0, r.value.1))
  }

  lemma ReadNone(ty: Ty, b: seq<byte>)
    ensures ReadMany(ty, 0, b) == Some(([], b))
  {
  }

  lemma NoneYet(r: Option<(seq<Val>, seq<byte>)>)
    ensures Then([], r) == r
  {
    if r.Some? { assert [] + r.value.0 == r.value.0; }
  }

  lemma OneMore(vals: seq<Val>, ty: Ty, n: nat, b: seq<byte>)
    requires n > 0
    ensures var first := Encoding.Read(ty, b);
            Then(vals, ReadMany(ty, n, b)) ==
              if first.None? then None else Then(vals + [first.value.0], ReadMany(ty, n - 1, first.value.1))
  {
    var first := Encoding.Read(ty, b);
    if first.Some? && ReadMany(ty, n - 1, first.value.1).Some? {
      var rest := ReadMany(ty, n - 1, first.value.1).value.0;
      assert vals + ([first.value.0] + rest) == (vals + [first.value.0]) + rest;
    }
  }
}
