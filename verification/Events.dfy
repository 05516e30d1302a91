// net/base/Event.cpp: the interest mask of an event and its place in a poller.
module Events {

  // The poll(2) bits; a mask is the 16-bit `short` of the program, two's complement.
  type Mask = bv16

  const NONE: Mask := 0xFFFF           // kNoneEvent, -1
  const READ: Mask := 0x1 | 0x2        // POLLIN | POLLPRI
  const WRITE: Mask := 0x4             // POLLOUT

  predicate Negative(m: Mask) {
    m >= 0x8000
  }

  datatype Op = EnableRead | EnableWrite | DisableRead | DisableWrite | Cancel

  function Enabled(m: Mask, bits: Mask): Mask {
    (if m == NONE then 0 else m) | bits
  }

  function Disabled(m: Mask, bits: Mask): Mask {
    var n := m & !bits;
    if n == 0 then NONE else n
  }

  function Masked(op: Op, m: Mask): Mask {
    match op
    case EnableRead => Enabled(m, READ)
    case EnableWrite => Enabled(m, WRITE)
    case DisableRead => Disabled(m, READ)
    case DisableWrite => Disabled(m, WRITE)
    case Cancel => NONE
  }

  // Enabling takes effect exactly when the event is listening already or its
  // mask is -1 itself: a disable on a cancelled event leaves another negative
  // mask, which no single enable makes non-negative.
  lemma EnableTakesEffectIff(m: Mask)
    ensures !Negative(Enabled(m, READ)) <==> !Negative(m) || m == NONE
    ensures !Negative(Enabled(m, WRITE)) <==> !Negative(m) || m == NONE
    ensures !Negative(Enabled(m, READ)) ==> Enabled(m, READ) & READ == READ
    ensures !Negative(Enabled(m, WRITE)) ==> Enabled(m, WRITE) & WRITE == WRITE
  {
  }

  // Enabling one interest adds its bits and keeps the other, and from -1 there
  // is none to keep;
  lemma EnableAddsOwnBits(m: Mask)
    ensures m != 0xFFFF ==> Enabled(m, READ) == m | 0x3 && Enabled(m, WRITE) == m | 0x4
    ensures Enabled(0xFFFF, READ) == 0x3 && Enabled(0xFFFF, WRITE) == 0x4
  {
  }

  // disabling it takes its bits and no other; without a bit left the mask is -1.
  lemma DisableTakesOwnBits(m: Mask)
    ensures Disabled(m, READ) == if m & 0xFFFC == 0 then 0xFFFF else m & 0xFFFC
    ensures Disabled(m, WRITE) == if m & 0xFFFB == 0 then 0xFFFF else m & 0xFFFB
  {
    assert !READ == 0xFFFC && !WRITE == 0xFFFB;
  }

  // ---- The mask as the two interests it stands for ----

  datatype Interest = Interest(read: bool, write: bool)

  function MaskOf(i: Interest): Mask {
    if i.read && i.write then 0x7 else if i.read then 0x3 else if i.write then 0x4 else 0xFFFF
  }

  function Wanted(i: Interest, op: Op): Interest {
    match op
    case EnableRead => i.(read := true)
    case EnableWrite => i.(write := true)
    case DisableRead => i.(read := false)
    case DisableWrite => i.(write := false)
    case Cancel => Interest(false, false)
  }

  function WantedAll(i: Interest, ops: seq<Op>): Interest
    decreases |ops|
  {
    if ops == [] then i else WantedAll(Wanted(i, ops[0]), ops[1..])
  }

  function MaskedAll(ops: seq<Op>, m: Mask): Mask
    decreases |ops|
  {
    if ops == [] then m else MaskedAll(ops[1..], Masked(ops[0], m))
  }

  // No call disables where nothing is wanted.
  predicate Orderly(i: Interest, ops: seq<Op>)
    decreases |ops|
  {
    ops != [] ==>
      && (ops[0] in {DisableRead, DisableWrite} ==> i.read || i.write)
      && Orderly(Wanted(i, ops[0]), ops[1..])
  }

  lemma MaskedIsWantedIff(i: Interest, op: Op)
    ensures Masked(op, MaskOf(i)) == MaskOf(Wanted(i, op)) <==> (op in {DisableRead, DisableWrite} ==> i.read || i.write)
  {
  }

  // Over any such calls the mask is exactly the interests asked for: each of
  // them as its own last call left it.
  lemma {:induction false} MaskIsInterest(i: Interest, ops: seq<Op>)
    requires Orderly(i, ops)
    ensures MaskedAll(ops, MaskOf(i)) == MaskOf(WantedAll(i, ops))
    decreases |ops|
  {
    if ops != [] {
      MaskedIsWantedIff(i, ops[0]);
      MaskIsInterest(Wanted(i, ops[0]), ops[1..]);
    }
  }

  // The shortest way there, and the shortest way out.
  lemma DisabledAfterCancelStaysDeaf()
    ensures Negative(Masked(EnableRead, Masked(DisableWrite, Masked(Cancel, READ))))
    ensures !Negative(Masked(EnableRead, Masked(EnableWrite, Masked(DisableWrite, Masked(Cancel, READ)))))
  {
  }

  // The masks an event can get: none, some of read and write, or deaf.
  predicate Reachable(m: Mask) {
    m == NONE || m == READ || m == WRITE || m == READ | WRITE || (Negative(m) && m | READ | WRITE == NONE)
  }

  lemma MaskedReachable(op: Op, m: Mask)
    requires Reachable(m)
    ensures Reachable(Masked(op, m))
    ensures !Negative(m) ==> (Negative(Masked(op, m)) <==> op == Cancel || (op == DisableRead && m == READ) || (op == DisableWrite && m == WRITE))
  {
  }

  class Event {
    const fd: nat
    var index: int
    var listened: Mask
    var happened: Mask

    constructor (fd: nat)
      ensures this.fd == fd && index == -1 && listened == NONE && happened == 0
    {
      this.fd := fd;
      index, listened, happened := -1, NONE, 0;
    }

    method SetHappened(m: Mask)
      modifies this`happened
      ensures happened == m
    {
      happened := m;
    }

    // The first lines of enableRead, enableWrite, disableRead and disableWrite,
    // before they turn to the poller.
    method Enable(bits: Mask)
      modifies this`listened
      ensures listened == Enabled(old(listened), bits)
    {
      var m := listened;
      if m == NONE {
        m := 0;
      }
      assert m == if old(listened) == NONE then 0 else old(listened);
      listened := m | bits;
    }

    method Disable(bits: Mask)
      modifies this`listened
      ensures listened == Disabled(old(listened), bits)
    {
      listened := listened & !bits;
      if listened == 0 {
        listened := NONE;
      }
    }

    method Change(op: Op)
      modifies this`listened
      ensures listened == Masked(op, old(listened)) && (op == Cancel ==> Negative(listened))
    {
      match op {
        case EnableRead => Enable(READ);
        case EnableWrite => Enable(WRITE);
        case DisableRead => Disable(READ);
        case DisableWrite => Disable(WRITE);
        case Cancel => listened := NONE;
      }
    }
  }

  // What a poller should hold: the masks that are not negative, by descriptor.
  type Registry = map<int, Mask>

  function Register(r: Registry, fd: int, m: Mask): Registry {
    if Negative(m) then r - {fd} else r[fd := m]
  }

  // The masks of all events, registered or not.
  type Masks = map<int, Mask>

  function Listening(masks: Masks): Registry {
    map fd | fd in masks && !Negative(masks[fd]) :: masks[fd]
  }

  lemma RegisterListening(masks: Masks, fd: int, m: Mask)
    requires fd in masks
    ensures Register(Listening(masks), fd, m) == Listening(masks[fd := m])
  {
  }
}
