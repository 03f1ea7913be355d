/**
 * The kernel resources the drivers acquire and release, seen as abstract tokens.
 * A driver's effect on the kernel is the sequence of acquire and release calls it makes;
 * `Replay` gives the tokens held afterwards and `Disciplined` says whether every call was
 * made at a moment when it was sound to make it.
 */
module Ledger {

  /** One kernel resource. Device numbers are absolute (major and minor folded into one int). */
  datatype Token =
    | Region(first: int, count: nat)  // alloc_chrdev_region / unregister_chrdev_region of `count` numbers
    | Class                           // class_create / class_destroy
    | Cdev(dev: int)                  // cdev_add / cdev_del
    | DevFile(dev: int)               // device_create / device_destroy
    | Driver                          // platform_driver_register / platform_driver_unregister

  datatype Op = Acquire(token: Token) | Release(token: Token)

  /**
   * The effect of one call. Releasing a token that is not held changes nothing: the kernel
   * matches a region by its exact first number and count, and finds no device or cdev to drop.
   */
  function Apply(held: set<Token>, op: Op): set<Token> {
    match op
    case Acquire(t) => held + {t}
    case Release(t) => held - {t}
  }

  /** The tokens held after making the calls `ops`, in order, starting from `held`. */
  function Replay(held: set<Token>, ops: seq<Op>): set<Token>
    decreases |ops|
  {
    if ops == [] then held else Replay(Apply(held, ops[0]), ops[1..])
  }

  /** Region `r` contains device number `dev`. */
  predicate Covers(r: Token, dev: int) {
    r.Region? && r.first <= dev < r.first + r.count
  }

  /**
   * `u` is built on `t`: `u` needs `t` while it exists, so `t` may be released only after `u`.
   * A cdev and a device file need the device-number region they live in, a device file also
   * needs its class and its cdev, and the registered driver creates device files in the class
   * with numbers from the region.
   */
  predicate BuiltOn(u: Token, t: Token) {
    match u
    case Cdev(d) => Covers(t, d)
    case DevFile(d) => t == Class || t == Cdev(d) || Covers(t, d)
    case Driver => t == Class || t.Region?
    case _ => false
  }

  /** What must already be held before `t` can be acquired. */
  predicate Ready(held: set<Token>, t: Token) {
    match t
    case Cdev(d) => exists r :: r in held && Covers(r, d)
    case DevFile(d) => Class in held && Cdev(d) in held && exists r :: r in held && Covers(r, d)
    case Driver => Class in held && exists r :: r in held && r.Region?
    case _ => true
  }

  /** A call is sound: acquire something new whose prerequisites are held, or release something held that nothing held is built on. */
  predicate Legal(held: set<Token>, op: Op) {
    match op
    case Acquire(t) => t !in held && Ready(held, t)
    case Release(t) => t in held && forall u :: u in held ==> !BuiltOn(u, t)
  }

  /** Every call of `ops`, made from `held`, is sound. */
  predicate Disciplined(held: set<Token>, ops: seq<Op>)
    decreases |ops|
  {
    ops == [] || (Legal(held, ops[0]) && Disciplined(Apply(held, ops[0]), ops[1..]))
  }

  /** The releases that take back what `ops` acquired, last acquired first. */
  function Undo(ops: seq<Op>): (r: seq<Op>)
    ensures |r| == |ops|
    ensures forall k :: 0 <= k < |ops| ==> r[k] == Release(ops[|ops| - 1 - k].token)
  {
    if ops == [] then [] else Undo(ops[1..]) + [Release(ops[0].token)]
  }

  lemma {:induction false} ReplayAppend(held: set<Token>, a: seq<Op>, b: seq<Op>)
    ensures Replay(held, a + b) == Replay(Replay(held, a), b)
    decreases |a|
  {
    if a == [] {
      assert a + b == b;
    } else {
      assert (a + b)[1..] == a[1..] + b;
      ReplayAppend(Apply(held, a[0]), a[1..], b);
    }
  }

  lemma {:induction false} DisciplinedAppend(held: set<Token>, a: seq<Op>, b: seq<Op>)
    ensures Disciplined(held, a + b) <==> Disciplined(held, a) && Disciplined(Replay(held, a), b)
    decreases |a|
  {
    if a == [] {
      assert a + b == b;
    } else {
      assert (a + b)[1..] == a[1..] + b;
      DisciplinedAppend(Apply(held, a[0]), a[1..], b);
    }
  }

  lemma {:induction false} UndoAppend(a: seq<Op>, b: seq<Op>)
    ensures Undo(a + b) == Undo(b) + Undo(a)
    decreases |a|
  {
    if a == [] {
      assert a + b == b;
    } else {
      assert (a + b)[1..] == a[1..] + b;
      UndoAppend(a[1..], b);
    }
  }

  lemma ReplayOne(held: set<Token>, op: Op)
    ensures Replay(held, [op]) == Apply(held, op)
  {
    assert [op][1..] == [];
  }

  lemma DisciplinedOne(held: set<Token>, op: Op)
    ensures Disciplined(held, [op]) <==> Legal(held, op)
  {
    assert [op][1..] == [];
  }

  /** Two sound runs, one after the other, make one sound run `ops`. */
  lemma Chain(ops: seq<Op>, held: set<Token>, a: seq<Op>, mid: set<Token>, b: seq<Op>, after: set<Token>)
    requires ops == a + b
    requires Disciplined(held, a) && Replay(held, a) == mid
    requires Disciplined(mid, b) && Replay(mid, b) == after
    ensures Disciplined(held, ops) && Replay(held, ops) == after
  {
    ReplayAppend(held, a, b);
    DisciplinedAppend(held, a, b);
  }

  /** Calls logged one at a time make the same log as the calls logged together. */
  lemma LogTwo(log: seq<Op>, a: Op, b: Op)
    ensures log + [a] + [b] == log + [a, b]
  {
  }

  lemma LogThree(log: seq<Op>, a: Op, b: Op, c: Op)
    ensures log + [a] + [b] + [c] == log + [a, b, c]
  {
  }

  /** Two calls in a row: sound when each is sound where it is made. */
  lemma DisciplinedTwo(held: set<Token>, a: Op, b: Op)
    ensures Disciplined(held, [a, b]) <==> Legal(held, a) && Legal(Apply(held, a), b)
    ensures Replay(held, [a, b]) == Apply(Apply(held, a), b)
  {
    assert [a, b] == [a] + [b];
    DisciplinedAppend(held, [a], [b]);
    ReplayAppend(held, [a], [b]);
    DisciplinedOne(held, a);
    DisciplinedOne(Apply(held, a), b);
    ReplayOne(held, a);
    ReplayOne(Apply(held, a), b);
  }

  /** The part of the kernel's state the drivers touch: the live resources and the calls made so far. */
  class KernelState {
    var held: set<Token>
    var log: seq<Op>

    ghost predicate Valid()
      reads this
    {
      held == Replay({}, log)
    }

    constructor ()
      ensures Valid() && held == {} && log == []
    {
      held, log := {}, [];
    }

    method Acquire(t: Token)
      requires Valid()
      modifies this
      ensures Valid()
      ensures log == old(log) + [Op.Acquire(t)] && held == old(held) + {t}
    {
      ReplayAppend({}, log, [Op.Acquire(t)]);
      held, log := held + {t}, log + [Op.Acquire(t)];
    }

    method Release(t: Token)
      requires Valid()
      modifies this
      ensures Valid()
      ensures log == old(log) + [Op.Release(t)] && held == old(held) - {t}
    {
      ReplayAppend({}, log, [Op.Release(t)]);
      held, log := held - {t}, log + [Op.Release(t)];
    }
  }
}
