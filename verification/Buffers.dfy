// utils/Buffer.h (Buffer): a compacting byte buffer with room for a prefix.
module Buffers {
  import opened Basics

  const CHEAP_PREPEND := 8
  const EXTRA := 64 * 1024  // extraBuf of readSocket

  class Buffer {
    var data: array<char>
    var reader: nat
    var writer: nat
    ghost const initial: nat  // initSize
    ghost var peak: nat       // the largest readable length so far

    ghost predicate Shape()
      reads this, data
    {
      reader <= writer <= data.Length && CHEAP_PREPEND + initial <= data.Length
    }

    // The storage never outgrows twice the largest amount of text it had to hold.
    ghost predicate Bounded()
      reads this, data
    {
      writer - reader <= peak && data.Length <= Max(CHEAP_PREPEND + initial, 2 * peak + 7)
    }

    ghost predicate Valid()
      reads this, data
    {
      Shape() && Bounded()
    }

    // The readable bytes.
    ghost function Contents(): (c: string)
      requires Shape()
      reads this, data
      ensures |c| == writer - reader
    {
      data[reader..writer]
    }

    constructor (initSize: nat)
      ensures Valid() && fresh(data) && Contents() == [] && initial == initSize && peak == 0
    {
      data := new char[CHEAP_PREPEND + initSize];
      reader, writer := CHEAP_PREPEND, CHEAP_PREPEND;
      initial, peak := initSize, 0;
    }

    function Readable(): (n: nat)
      requires Shape()
      reads this, data
      ensures n == |Contents()|
    {
      writer - reader
    }

    function Writable(): nat
      requires Shape()
      reads this, data
    {
      data.Length - writer
    }

    method RetrieveAll()
      requires Valid()
      modifies this`reader, this`writer
      ensures Valid() && Contents() == []
    {
      reader, writer := CHEAP_PREPEND, CHEAP_PREPEND;
    }

    method Retrieve(len: nat)
      requires Valid()
      modifies this`reader, this`writer
      ensures Valid() && Contents() == old(Contents())[Min(len, |old(Contents())|)..]
    {
      if len < Readable() {
        reader := reader + len;
      } else {
        RetrieveAll();
      }
    }

    method RetrieveAsString(len: nat) returns (s: string)
      requires Valid()
      modifies this`reader, this`writer
      ensures Valid()
      ensures len <= |old(Contents())| ==> s == old(Contents())[..len] && Contents() == old(Contents())[len..]
      ensures len > |old(Contents())| ==> s == "" && Contents() == old(Contents())
    {
      if len <= Readable() {
        s := data[reader..reader + len];
        Retrieve(len);
      } else {
        s := "";
      }
    }

    method UndoAppend(len: nat)
      requires Valid()
      modifies this`writer
      ensures Valid()
      ensures Contents() == if len <= |old(Contents())| then old(Contents())[..|old(Contents())| - len] else old(Contents())
    {
      ghost var c := Contents();
      if len <= Readable() {
        writer := writer - len;
        assert Contents() == c[..|c| - len];
      }
    }

    // Moving the readable bytes to the front: a forward copy onto itself, which
    // needs the destination to lie before the source.
    method Compact()
      requires Shape() && CHEAP_PREPEND < reader
      modifies this`reader, this`writer, data
      ensures Shape() && Contents() == old(Contents())
      ensures reader == CHEAP_PREPEND && writer == CHEAP_PREPEND + |old(Contents())|
    {
      var readable := Readable();
      ghost var c := Contents();
      for k := 0 to readable
        modifies data
        invariant forall j :: 0 <= j < k ==> data[CHEAP_PREPEND + j] == c[j]
        invariant forall j :: k <= j < readable ==> data[reader + j] == c[j]
      {
        data[CHEAP_PREPEND + k] := data[reader + k];
      }
      reader := CHEAP_PREPEND;
      writer := reader + readable;
      assert forall j :: 0 <= j < readable ==> data[reader..writer][j] == c[j];
    }

    method Grow(size: nat)
      requires Shape() && data.Length <= size
      modifies this`data
      ensures Shape() && fresh(data) && data.Length == size && Contents() == old(Contents())
    {
      var from := data;
      data := new char[size](i requires 0 <= i < size reads from => if i < from.Length then from[i] else '\0');
    }

    // Only called for want of room; then compacting moves the bytes to the
    // front, never back, and there is room for `len` bytes afterwards.
    method MakeSpace(len: nat)
      requires Valid() && Writable() < len
      modifies this`data, this`reader, this`writer, data
      ensures Shape() && Contents() == old(Contents()) && len <= Writable()
      ensures data == old(data) || fresh(data)
      ensures data.Length <= Max(old(data.Length), 2 * (|old(Contents())| + len) + 7)
    {
      if Writable() + reader < len + CHEAP_PREPEND {
        Grow(writer + len);
      } else {
        Compact();
      }
    }

    method Append(bytes: string)
      requires Valid()
      modifies this`data, this`reader, this`writer, this`peak, data
      ensures Valid() && Contents() == old(Contents()) + bytes
      ensures data == old(data) || fresh(data)
      ensures peak == Max(old(peak), |old(Contents())| + |bytes|)
    {
      if Writable() < |bytes| {
        MakeSpace(|bytes|);
      }
      if |bytes| <= Writable() {
        Extend(bytes);
      } else {
        assert false;  // "no enough space" is never logged
      }
    }

    // The bytes are put behind the readable ones and become readable.
    method Extend(bytes: string)
      requires Shape() && |bytes| <= Writable() && |Contents()| <= peak
      requires data.Length <= Max(CHEAP_PREPEND + initial, 2 * Max(peak, |Contents()| + |bytes|) + 7)
      modifies this`writer, this`peak, data
      ensures Valid() && Contents() == old(Contents()) + bytes && writer == old(writer) + |bytes|
      ensures peak == Max(old(peak), |old(Contents())| + |bytes|)
    {
      ghost var c := Contents();
      Write(bytes);
      assert data[reader..writer] == c;
      writer := writer + |bytes|;
      assert data[reader..writer] == data[reader..writer - |bytes|] + data[writer - |bytes|..writer];
      peak := Max(peak, writer - reader);
    }

    // std::copy to beginWrite().
    method Write(bytes: string)
      requires Shape() && |bytes| <= Writable()
      modifies data
      ensures data[..writer] == old(data[..writer]) && data[writer..writer + |bytes|] == bytes
    {
      for k := 0 to |bytes|
        invariant data[..writer] == old(data[..writer]) && data[writer..writer + k] == bytes[..k]
      {
        data[writer + k] := bytes[k];
      }
    }

    // Longer prefixes than the room before the readable bytes abort the program.
    method Prepend(bytes: string)
      requires Valid() && |bytes| <= reader
      modifies this`reader, this`peak, data
      ensures Valid() && Contents() == bytes + old(Contents())
      ensures peak == Max(old(peak), |old(Contents())| + |bytes|)
    {
      ghost var c := Contents();
      reader := reader - |bytes|;
      for k := 0 to |bytes|
        modifies data
        invariant data[reader..reader + k] == bytes[..k]
        invariant data[reader + |bytes|..writer] == c
      {
        data[reader + k] := bytes[k];
      }
      assert data[reader..writer] == data[reader..reader + |bytes|] + data[reader + |bytes|..writer];
      peak := Max(peak, writer - reader);
    }

    // readv into the writable bytes and, for what does not fit, extraBuf. `got`
    // is what it read.
    method ReadSocket(got: string) returns (n: nat)
      requires Valid() && |got| <= Writable() + EXTRA
      modifies this`data, this`reader, this`writer, this`peak, data
      ensures Valid() && Contents() == old(Contents()) + got && n == |got|
      ensures data == old(data) || fresh(data)
      ensures peak == Max(old(peak), |old(Contents())| + |got|)
    {
      var writable := Writable();
      n := |got|;
      if n <= writable {
        Extend(got);
      } else {
        Extend(got[..writable]);
        Append(got[writable..]);
        assert got == got[..writable] + got[writable..];
      }
    }

    // A prefix longer than the room before the readable bytes ends the program,
    // and readv reads no more than the room it is given.
    predicate Possible(op: Operation)
      requires Shape()
      reads this, data
    {
      match op
      case Front(prefix) => |prefix| <= reader
      case Read(got) => |got| <= Writable() + EXTRA
      case _ => true
    }

    method Perform(op: Operation)
      requires Valid() && Possible(op)
      modifies this`data, this`reader, this`writer, this`peak, data
      ensures Valid() && Contents() == Performed(old(Contents()), op)
      ensures data == old(data) || fresh(data)
      ensures peak == Max(old(peak), |Contents()|)
    {
      match op {
        case Add(bytes) => Append(bytes);
        case Front(prefix) => Prepend(prefix);
        case Read(got) => var _ := ReadSocket(got);
        case Drop(len) => Retrieve(len);
        case Undo(len) => UndoAppend(len);
      }
    }

    // The contents and the peak are those of the byte sequence after ops.
    ghost predicate Stands(c: string, before: nat, ops: seq<Operation>)
      reads this, data
    {
      Valid() && Contents() == PerformedAll(c, ops) && peak == Max(before, Peak(c, ops))
    }

    method PerformNext(ghost c: string, ghost before: nat, ops: seq<Operation>, k: nat)
      requires k < |ops| && Stands(c, before, ops[..k]) && Possible(ops[k])
      modifies this`data, this`reader, this`writer, this`peak, data
      ensures Stands(c, before, ops[..k + 1]) && (data == old(data) || fresh(data))
    {
      PerformedAllNext(c, ops, k);
      Perform(ops[k]);
    }

    // Any sequence of calls, up to the first that cannot be made: the contents
    // are those of the byte sequence, and the storage is bounded by what had to
    // be held at once.
    method PerformAll(ops: seq<Operation>) returns (done: nat)
      requires Valid()
      modifies this`data, this`reader, this`writer, this`peak, data
      ensures Valid() && done <= |ops| && (done < |ops| ==> !Possible(ops[done]))
      ensures Contents() == PerformedAll(old(Contents()), ops[..done])
      ensures data.Length <= Max(8 + initial, 2 * Max(old(peak), Peak(old(Contents()), ops[..done])) + 7)
    {
      ghost var c, before := Contents(), peak;
      done := 0;
      PerformedAllSnoc(c, []);
      assert ops[..0] == [];
      while done < |ops| && Possible(ops[done])
        modifies this`data, this`reader, this`writer, this`peak, data
        invariant done <= |ops| && Stands(c, before, ops[..done])
        invariant data == old(data) || fresh(data)
      {
        PerformNext(c, before, ops, done);
        done := done + 1;
      }
    }
  }

  // ---- the byte sequence the buffer stands for -------------------------------

  datatype Operation =
    | Add(bytes: string) | Front(prefix: string) | Read(got: string) | Drop(len: nat) | Undo(back: nat)

  function Performed(c: string, op: Operation): string {
    match op
    case Add(bytes) => c + bytes
    case Front(prefix) => prefix + c
    case Read(got) => c + got
    case Drop(len) => c[Min(len, |c|)..]
    case Undo(back) => if back <= |c| then c[..|c| - back] else c
  }

  function PerformedAll(c: string, ops: seq<Operation>): string
    decreases |ops|
  {
    if ops == [] then c else PerformedAll(Performed(c, ops[0]), ops[1..])
  }

  /** The longest the contents ever were. */
  function Peak(c: string, ops: seq<Operation>): nat
    decreases |ops|
  {
    if ops == [] then |c| else Max(|c|, Peak(Performed(c, ops[0]), ops[1..]))
  }

  lemma {:induction false} PerformedAllSnoc(c: string, ops: seq<Operation>)
    ensures ops == [] ==> PerformedAll(c, ops) == c && Peak(c, ops) == |c|
    ensures ops != [] ==>
              var n := |ops| - 1;
              && PerformedAll(c, ops) == Performed(PerformedAll(c, ops[..n]), ops[n])
              && Peak(c, ops) == Max(Peak(c, ops[..n]), |PerformedAll(c, ops)|)
    decreases |ops|
  {
    if |ops| > 1 {
      var n := |ops| - 1;
      PerformedAllSnoc(Performed(c, ops[0]), ops[1..]);
      assert ops[1..][..n - 1] == ops[..n][1..];
    }
  }

  lemma PerformedAllNext(c: string, ops: seq<Operation>, k: nat)
    requires k < |ops|
    ensures PerformedAll(c, ops[..k + 1]) == Performed(PerformedAll(c, ops[..k]), ops[k])
    ensures Peak(c, ops[..k + 1]) == Max(Peak(c, ops[..k]), |PerformedAll(c, ops[..k + 1])|)
  {
    PerformedAllSnoc(c, ops[..k + 1]);
    assert ops[..k + 1][..k] == ops[..k];
  }

  /** Everything added, and everything taken from the front, in order. */
  function Adding(op: Operation): string {
    match op
    case Add(bytes) => bytes
    case Read(got) => got
    case _ => ""
  }

  function Taking(c: string, op: Operation): string {
    if op.Drop? then c[..Min(op.len, |c|)] else ""
  }

  function Added(ops: seq<Operation>): string {
    if ops == [] then "" else Adding(ops[0]) + Added(ops[1..])
  }

  function Taken(c: string, ops: seq<Operation>): string
    decreases |ops|
  {
    if ops == [] then "" else Taking(c, ops[0]) + Taken(Performed(c, ops[0]), ops[1..])
  }

  lemma TakingKeeps(c: string, op: Operation)
    requires !op.Undo? && !op.Front?
    ensures Taking(c, op) + Performed(c, op) == c + Adding(op)
  {
  }

  lemma Regroup(c: string, adding: string, taking: string, next: string, taken: string, left: string, added: string)
    requires taking + next == c + adding && taken + left == next + added
    ensures (taking + taken) + left == c + (adding + added)
  {
    assert (taking + taken) + left == taking + (taken + left);
    assert taking + (next + added) == (taking + next) + added;
    assert (c + adding) + added == c + (adding + added);
  }

  /** Bytes leave in the order they came: none lost, repeated or reordered. */
  lemma {:induction false} FirstInFirstOut(c: string, ops: seq<Operation>)
    requires forall op :: op in ops ==> !op.Undo? && !op.Front?
    ensures Taken(c, ops) + PerformedAll(c, ops) == c + Added(ops)
    decreases |ops|
  {
    if ops != [] {
      var rest := ops[1..];
      var next := Performed(c, ops[0]);
      TakingKeeps(c, ops[0]);
      FirstInFirstOut(next, rest);
      Regroup(c, Adding(ops[0]), Taking(c, ops[0]), next, Taken(next, rest), PerformedAll(next, rest), Added(rest));
    }
  }

  /** undoAppend takes back exactly what append added. */
  lemma UndoUndoesAppend(c: string, bytes: string)
    ensures PerformedAll(c, [Add(bytes), Undo(|bytes|)]) == c
  {
    var ops := [Add(bytes), Undo(|bytes|)];
    assert ops[1..] == [Undo(|bytes|)];
    assert PerformedAll(c, ops) == PerformedAll(c + bytes, [Undo(|bytes|)]);
    assert [Undo(|bytes|)][1..] == [];
    assert Performed(c + bytes, Undo(|bytes|)) == c;
  }
}
