/**
  The receive window of src/recv_win.c: 1024 bits packed in 32-bit words and used as a
  ring, and what it stands for, a set of numbers at or above the next expected one.
 */
module RingWindow {
  const WINDOW_SIZE: nat := 1024   // src/include/recv_win.h:7
  const INT_SIZE: nat := 32
  const BM_SIZE: nat := 32

  // ---------------------------------------------------------------- what the ring stands for

  /** The numbers below next have been received; held are the ones received above it. */
  datatype Window = Window(next: nat, held: set<nat>)

  const EMPTY: Window := Window(1, {})

  predicate Fits(w: Window, s: nat) {
    w.next <= s < w.next + WINDOW_SIZE
  }

  ghost predicate WellFormed(w: Window) {
    forall s :: s in w.held ==> Fits(w, s)
  }

  function Mark(w: Window, s: nat): Window {
    w.(held := w.held + {s})
  }

  /** The least number in [s, limit) that is missing from held, or limit. */
  function LeastMissing(s: nat, limit: nat, held: set<nat>): (r: nat)
    requires s <= limit
    ensures s <= r <= limit
    ensures forall t :: s <= t < r ==> t in held
    ensures r < limit ==> r !in held
    decreases limit - s
  {
    if s == limit || s !in held then s else LeastMissing(s + 1, limit, held)
  }

  function Slide(w: Window): Window {
    var r := LeastMissing(w.next, w.next + WINDOW_SIZE, w.held);
    Window(r, set s | s in w.held && r <= s)
  }

  /** A number is accounted for when it has been received. */
  predicate Has(w: Window, s: nat) {
    s < w.next || s in w.held
  }

  /**
    Sliding forgets and invents nothing, stops at the least missing number, and is done
    in one go.
   */
  lemma SlideFindsLeastMissing(w: Window)
    requires WellFormed(w)
    ensures WellFormed(Slide(w)) && Slide(w).next !in Slide(w).held
    ensures forall s: nat :: Has(Slide(w), s) <==> Has(w, s)
    ensures forall s: nat :: s < Slide(w).next ==> Has(w, s)
    ensures !Has(w, Slide(w).next)
    ensures Slide(Slide(w)) == Slide(w)
  {
    var v := Slide(w);
    assert v.next == w.next + WINDOW_SIZE ==> v.next !in w.held;
    assert Slide(v).held == v.held;
  }

  /** What dl_recv does to the window: mark a number that fits and slide, or slide alone. */
  datatype Op = MarkOp(s: nat) | SlideOp

  function Apply(w: Window, op: Op): Window {
    match op
    case MarkOp(s) => if Fits(w, s) then Mark(w, s) else w
    case SlideOp => Slide(w)
  }

  function Replay(ops: seq<Op>): Window {
    if ops == [] then EMPTY else Apply(Replay(ops[..|ops| - 1]), ops[|ops| - 1])
  }

  /** Number s was offered while it was not beyond the window. */
  ghost predicate Offered(ops: seq<Op>, s: nat) {
    exists i :: 0 <= i < |ops| && ops[i] == MarkOp(s) && s < Replay(ops[..i]).next + WINDOW_SIZE
  }

  /**
    However marks and slides are interleaved, the window has exactly the numbers that were
    offered in time: none is lost by a slide, none appears from nowhere.
   */
  lemma {:induction false} ReplayHasExactlyTheOffered(ops: seq<Op>, s: nat)
    requires 1 <= s
    ensures WellFormed(Replay(ops)) && 1 <= Replay(ops).next
    ensures Has(Replay(ops), s) <==> Offered(ops, s)
  {
    if ops != [] {
      var front, last := ops[..|ops| - 1], ops[|ops| - 1];
      ReplayHasExactlyTheOffered(front, s);
      SlideFindsLeastMissing(Replay(front));
      OfferedGrows(front, last, s);
      assert ops == front + [last];
    }
  }

  lemma OfferedGrows(ops: seq<Op>, op: Op, s: nat)
    ensures Offered(ops + [op], s) <==>
            Offered(ops, s) || (op == MarkOp(s) && s < Replay(ops).next + WINDOW_SIZE)
  {
    var all := ops + [op];
    assert all[..|ops|] == ops;
    assert forall i :: 0 <= i < |ops| ==> all[..i] == ops[..i] && all[i] == ops[i];
    if Offered(ops, s) {
      var i :| 0 <= i < |ops| && ops[i] == MarkOp(s) && s < Replay(ops[..i]).next + WINDOW_SIZE;
      assert all[i] == MarkOp(s) && all[..i] == ops[..i];
    }
    if op == MarkOp(s) && s < Replay(ops).next + WINDOW_SIZE {
      assert all[|ops|] == MarkOp(s);
    }
  }

  // ---------------------------------------------------------------- bits and positions

  type Word = bv32

  /** 1 << i; see MaskIsPower */
  function Mask(i: nat): Word
    requires i < INT_SIZE
  {
    match i
    case 0 => 0x1 case 1 => 0x2 case 2 => 0x4 case 3 => 0x8
    case 4 => 0x10 case 5 => 0x20 case 6 => 0x40 case 7 => 0x80
    case 8 => 0x100 case 9 => 0x200 case 10 => 0x400 case 11 => 0x800
    case 12 => 0x1000 case 13 => 0x2000 case 14 => 0x4000 case 15 => 0x8000
    case 16 => 0x10000 case 17 => 0x20000 case 18 => 0x40000 case 19 => 0x80000
    case 20 => 0x100000 case 21 => 0x200000 case 22 => 0x400000 case 23 => 0x800000
    case 24 => 0x1000000 case 25 => 0x2000000 case 26 => 0x4000000 case 27 => 0x8000000
    case 28 => 0x10000000 case 29 => 0x20000000 case 30 => 0x40000000 case _ => 0x80000000
  }

  lemma MaskIsPower(i: nat)
    requires i < INT_SIZE
    ensures Mask(0) == 1 && Mask(i) != 0
    ensures i > 0 ==> Mask(i) == Mask(i - 1) << 1
  {
  }

  lemma ShiftedApart(m: Word, n: Word)
    ensures 1 & (n << 1) == 0
    ensures m & n == 0 ==> (m << 1) & (n << 1) == 0
  {
  }

  /** Different bits have masks without a bit in common. */
  lemma {:induction false} MasksApart(i: nat, j: nat)
    requires i < j < INT_SIZE
    ensures Mask(i) & Mask(j) == 0
    decreases i
  {
    hide Mask;
    MaskIsPower(i);
    MaskIsPower(j);
    if i > 0 {
      MasksApart(i - 1, j - 1);
      ShiftedApart(Mask(i - 1), Mask(j - 1));
    } else {
      ShiftedApart(0, Mask(j - 1));
    }
  }

  predicate AnyOf(word: Word, m: Word) {
    word & m != 0
  }

  predicate AllOf(word: Word, m: Word) {
    word & m == m
  }

  predicate Disjoint(m: Word, n: Word) {
    m & n == 0
  }

  function Or(word: Word, m: Word): Word {
    word | m
  }

  function Xor(word: Word, m: Word): Word {
    word ^ m
  }

  /** BM_ISSET within one word. */
  predicate Bit(word: Word, i: nat)
    requires i < INT_SIZE
  {
    AnyOf(word, Mask(i))
  }

  lemma OneBitAnyIsAll(word: Word, i: nat)
    requires i < INT_SIZE
    ensures AnyOf(word, Mask(i)) <==> AllOf(word, Mask(i))
  {
  }

  lemma OrOutside(word: Word, m: Word, n: Word)
    requires m & n == 0
    ensures (word | m) & n == word & n
  {
  }

  lemma XorOutside(word: Word, m: Word, n: Word)
    requires m & n == 0
    ensures (word ^ m) & n == word & n
  {
  }

  lemma Elsewhere(word: Word, m: Word, n: Word)
    requires Disjoint(m, n)
    ensures AnyOf(Or(word, m), n) == AnyOf(word, n)
    ensures AnyOf(Xor(word, m), n) == AnyOf(word, n)
  {
    OrOutside(word, m, n);
    XorOutside(word, m, n);
  }

  lemma OrUnderMask(word: Word, m: Word)
    requires m != 0
    ensures AnyOf(Or(word, m), m)
  {
  }

  lemma XorUnderMask(word: Word, m: Word)
    ensures AllOf(word, m) ==> !AnyOf(Xor(word, m), m)
    ensures !AnyOf(word, m) ==> AllOf(Xor(word, m), m)
  {
  }

  lemma AndCommutes(m: Word, n: Word)
    ensures m & n == n & m
  {
  }

  lemma MasksDisjoint(i: nat, j: nat)
    requires i < INT_SIZE && j < INT_SIZE && i != j
    ensures Disjoint(Mask(i), Mask(j))
  {
    hide Mask;
    AndCommutes(Mask(i), Mask(j));
    if i < j {
      MasksApart(i, j);
    } else {
      MasksApart(j, i);
    }
  }

  /** BM_SET within one word: word | 1 << i */
  function WithBit(word: Word, i: nat): Word
    requires i < INT_SIZE
  {
    Or(word, Mask(i))
  }

  /** BM_UNSET within one word: word ^ 1 << i */
  function WithBitFlipped(word: Word, i: nat): Word
    requires i < INT_SIZE
  {
    Xor(word, Mask(i))
  }

  /** The or sets bit i and keeps every other. */
  lemma OrSetsBit(word: Word, i: nat, j: nat)
    requires i < INT_SIZE && j < INT_SIZE
    ensures Bit(WithBit(word, i), j) <==> i == j || Bit(word, j)
  {
    hide Mask, AnyOf, Or, Disjoint;
    if i == j {
      MaskIsPower(i);
      OrUnderMask(word, Mask(i));
    } else {
      MasksDisjoint(i, j);
      Elsewhere(word, Mask(i), Mask(j));
    }
  }

  /** The exclusive or flips bit i and keeps every other. */
  lemma XorFlipsBit(word: Word, i: nat, j: nat)
    requires i < INT_SIZE && j < INT_SIZE
    ensures Bit(WithBitFlipped(word, i), j) <==> if i == j then !Bit(word, j) else Bit(word, j)
  {
    hide Mask, AnyOf, AllOf, Xor, Disjoint;
    if i == j {
      OneBitAnyIsAll(word, i);
      OneBitAnyIsAll(Xor(word, Mask(i)), i);
      XorUnderMask(word, Mask(i));
    } else {
      MasksDisjoint(i, j);
      Elsewhere(word, Mask(i), Mask(j));
    }
  }

  lemma ZeroHasNoBits(i: nat)
    requires i < INT_SIZE
    ensures !Bit(0, i)
  {
    hide Mask;
  }

  /** SEQ_IN_WIN: where number s sits in the ring. */
  function Position(s: nat, next: nat, front: nat): nat
    requires next <= s
  {
    (s - next + front) % WINDOW_SIZE
  }

  /** Numbers of one window have positions of their own. */
  lemma PositionsDiffer(s: nat, t: nat, next: nat, front: nat)
    requires next <= s < t < next + WINDOW_SIZE
    ensures Position(s, next, front) != Position(t, next, front)
  {
  }

  /** Moving the front along with the next number leaves every position where it was. */
  lemma PositionMovesAlong(s: nat, next: nat, front: nat, next': nat)
    requires next <= next' <= s
    ensures Position(s, next', Position(next', next, front)) == Position(s, next, front)
  {
  }

  lemma PositionWraps(s: nat, next: nat, front: nat)
    requires next <= s
    ensures Position(s + WINDOW_SIZE, next, front) == Position(s, next, front)
  {
  }

  /** Front and next number stay in step. */
  lemma FrontFollows(next: nat, front: nat, next': nat)
    requires 1 <= next <= next' && front == (next - 1) % WINDOW_SIZE
    ensures Position(next', next, front) == (next' - 1) % WINDOW_SIZE
  {
  }

  /** RecvWin, with the procedures of src/recv_win.c. */
  class RecvWin {
    const bm: array<Word>
    var front: nat
    var next: nat

    ghost predicate Valid()
      reads this
    {
      && bm.Length == BM_SIZE
      && front < WINDOW_SIZE && 1 <= next
      && front == (next - 1) % WINDOW_SIZE
    }

    /** BM_ISSET at ring position p. */
    function IsSet(p: nat): bool
      requires bm.Length == BM_SIZE && p < WINDOW_SIZE
      reads this, bm
    {
      Bit(bm[p / INT_SIZE], p % INT_SIZE)
    }

    /** What the packed ring represents. */
    ghost function State(): (w: Window)
      requires Valid()
      reads this, bm
      ensures WellFormed(w)
    {
      Window(next, set s: nat | next <= s < next + WINDOW_SIZE && IsSet(Position(s, next, front)))
    }

    /** init_recvwin */
    constructor ()
      ensures Valid() && State() == EMPTY && fresh(bm)
    {
      bm := new Word[BM_SIZE](_ => 0);
      front := 0;
      next := 1;
      new;
      hide Bit;
      forall i: nat | i < INT_SIZE
        ensures !Bit(0, i)
      {
        ZeroHasNoBits(i);
      }
    }

    /** seq_fit_in */
    method SeqFitIn(s: nat) returns (fits: bool)
      requires Valid()
      ensures fits == Fits(State(), s)
    {
      fits := s >= next && s < next + WINDOW_SIZE;
    }

    /** seq_exist_in */
    method SeqExistIn(s: nat) returns (held: bool)
      requires Valid() && Fits(State(), s)
      ensures held == (s in State().held)
    {
      held := IsSet((s - next + front) % WINDOW_SIZE);
    }

    /** BM_SET and BM_UNSET touch one position of the ring and no other. */
    method SetAt(p: nat)
      requires bm.Length == BM_SIZE && p < WINDOW_SIZE
      modifies bm
      ensures forall q :: 0 <= q < WINDOW_SIZE ==> IsSet(q) == (q == p || old(IsSet(q)))
    {
      hide Bit, WithBit, WithBitFlipped;
      ghost var word := bm[p / INT_SIZE];
      bm[p / INT_SIZE] := WithBit(bm[p / INT_SIZE], p % INT_SIZE);
      forall q | 0 <= q < WINDOW_SIZE
        ensures IsSet(q) == (q == p || old(IsSet(q)))
      {
        OrSetsBit(word, p % INT_SIZE, q % INT_SIZE);
      }
    }

    method UnsetAt(p: nat)
      requires bm.Length == BM_SIZE && p < WINDOW_SIZE && IsSet(p)
      modifies bm
      ensures forall q :: 0 <= q < WINDOW_SIZE ==> IsSet(q) == (q != p && old(IsSet(q)))
    {
      hide Bit, WithBit, WithBitFlipped;
      ghost var word := bm[p / INT_SIZE];
      bm[p / INT_SIZE] := WithBitFlipped(bm[p / INT_SIZE], p % INT_SIZE);
      forall q | 0 <= q < WINDOW_SIZE
        ensures IsSet(q) == (q != p && old(IsSet(q)))
      {
        XorFlipsBit(word, p % INT_SIZE, q % INT_SIZE);
      }
    }

    /** recvwin_mark */
    method MarkReceived(s: nat)
      requires Valid() && Fits(State(), s)
      modifies bm
      ensures Valid() && State() == Mark(old(State()), s)
    {
      hide Bit;
      SetAt((s - next + front) % WINDOW_SIZE);
      forall t: nat | next <= t < next + WINDOW_SIZE
        ensures IsSet(Position(t, next, front)) == (t == s || old(IsSet(Position(t, next, front))))
      {
        if t < s {
          PositionsDiffer(t, s, next, front);
        } else if s < t {
          PositionsDiffer(s, t, next, front);
        }
      }
    }

    /** One turn of the loop of recvwin_slideack, at a number whose bit is set. */
    method ClearNext(s: nat, ghost held: set<nat>)
      requires Valid() && next <= s < next + WINDOW_SIZE && IsSet(Position(s, next, front))
      requires forall t: nat :: next <= t < next + WINDOW_SIZE ==>
                 IsSet(Position(t, next, front)) == (s <= t && t in held)
      modifies bm
      ensures forall t: nat :: next <= t < next + WINDOW_SIZE ==>
                IsSet(Position(t, next, front)) == (s < t && t in held)
    {
      hide Bit;
      UnsetAt((s - next + front) % WINDOW_SIZE);
      forall t: nat | next <= t < next + WINDOW_SIZE
        ensures IsSet(Position(t, next, front)) == (s < t && t in held)
      {
        if t < s {
          PositionsDiffer(t, s, next, front);
        } else if s < t {
          PositionsDiffer(s, t, next, front);
        }
      }
    }

    /** recvwin_slideack */
    method SlideAck()
      requires Valid()
      modifies this, bm
      ensures Valid() && State() == Slide(old(State()))
    {
      hide Bit;
      ghost var w := State();
      var s, size := next, 0;
      while size < WINDOW_SIZE
        invariant size <= WINDOW_SIZE && s == next + size && next == w.next && front == old(front) && Valid()
        invariant forall t: nat :: next <= t < next + WINDOW_SIZE ==>
                    IsSet(Position(t, next, front)) == (s <= t && t in w.held)
        invariant LeastMissing(w.next, w.next + WINDOW_SIZE, w.held) == LeastMissing(s, w.next + WINDOW_SIZE, w.held)
      {
        assert IsSet(Position(s, next, front)) == (s in w.held);
        if IsSet((s - next + front) % WINDOW_SIZE) {
          ClearNext(s, w.held);
        } else {
          break;
        }
        size, s := size + 1, s + 1;
      }
      ghost var next', front' := next, front;
      front := (s - next + front) % WINDOW_SIZE;
      next := next + size;
      RingRotated(next', front', w);
    }

    /** After the slide every position is read under the new front; the numbers that came into view are unset. */
    lemma RingRotated(next': nat, front': nat, w: Window)
      requires bm.Length == BM_SIZE && WellFormed(w)
      requires 1 <= next' == w.next && front' == (next' - 1) % WINDOW_SIZE
      requires next' <= next <= next' + WINDOW_SIZE && front == Position(next, next', front')
      requires forall t: nat :: next' <= t < next' + WINDOW_SIZE ==>
                 IsSet(Position(t, next', front')) == (next <= t && t in w.held)
      requires LeastMissing(w.next, w.next + WINDOW_SIZE, w.held) == next
      ensures Valid() && State() == Slide(w)
    {
      hide Bit;
      FrontFollows(next', front', next);
      forall t: nat | next <= t < next + WINDOW_SIZE
        ensures IsSet(Position(t, next, front)) == (t in w.held)
      {
        SeenThroughOldFront(t, next', front', w);
      }
      assert State().held == Slide(w).held;
    }

    lemma SeenThroughOldFront(t: nat, next': nat, front': nat, w: Window)
      requires bm.Length == BM_SIZE && WellFormed(w)
      requires 1 <= next' == w.next
      requires next' <= next <= t < next + WINDOW_SIZE && next <= next' + WINDOW_SIZE
      requires front == Position(next, next', front')
      requires forall t: nat :: next' <= t < next' + WINDOW_SIZE ==>
                 IsSet(Position(t, next', front')) == (next <= t && t in w.held)
      ensures IsSet(Position(t, next, front)) == (t in w.held)
    {
      hide Bit;
      PositionMovesAlong(t, next', front', next);
      if t >= next' + WINDOW_SIZE {
        PositionWraps(t - WINDOW_SIZE, next', front');
      }
    }
  }
}
