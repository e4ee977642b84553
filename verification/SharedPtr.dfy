/** `unsafe_shared_ptr`: reference counts kept by hand, over any program of constructions, assignments and
    destructions. */
module SharedPtr {
  import opened Counting

  /** A pointer object: out of scope, empty, or pointing to a control block. */
  datatype Slot = Gone | Null | To(block: nat)

  function PointsTo(b: nat): Slot -> bool { (s: Slot) => s == To(b) }

  /** What a program can do with pointers; each operation names the pointer objects it works on. */
  datatype Op =
    | Make
    | MakeEmpty
    | FromThis(block: nat)
    | CopyConstruct(other: nat)
    | MoveConstruct(other: nat)
    | CopyAssign(self: nat, other: nat)
    | MoveAssign(self: nat, other: nat)
    | Destroy(self: nat)

  class Pointers {
    var slots: seq<Slot>
    var counts: seq<nat>
    /** How often each block's object was destroyed and its memory given back. */
    var freed: seq<nat>

    /** Every count is the number of pointers to the block, and a block was freed once if that is zero, else never. */
    ghost predicate Valid()
      reads this
    {
      && |counts| == |freed|
      && (forall i | 0 <= i < |slots| && slots[i].To? :: slots[i].block < |counts|)
      && (forall b | 0 <= b < |counts| ::
            counts[b] == Count(slots, PointsTo(b)) && freed[b] == (if counts[b] == 0 then 1 else 0))
    }

    predicate InScope(h: nat)
      reads this
    {
      h < |slots| && slots[h] != Gone
    }

    constructor ()
      ensures Valid() && slots == [] && counts == []
    {
      slots, counts, freed := [], [], [];
    }

    /** A pointer to a new object, whose block starts with count one. */
    method Make() returns (h: nat)
      requires Valid()
      modifies this
      ensures Valid() && h == |old(slots)| && slots == old(slots) + [To(|old(counts)|)]
      ensures counts == old(counts) + [1] && freed == old(freed) + [0]
    {
      var b := |counts|;
      counts, freed := counts + [1], freed + [0];
      NoneYet(slots, b);
      PushCounts(slots, To(b));
      h := |slots|;
      slots := slots + [To(b)];
    }

    method MakeEmpty() returns (h: nat)
      requires Valid()
      modifies this
      ensures Valid() && h == |old(slots)| && slots == old(slots) + [Null] && unchanged(`counts) && unchanged(`freed)
    {
      PushCounts(slots, Null);
      h := |slots|;
      slots := slots + [Null];
    }

    /** `shared_from_this`, called on an object that still lives. */
    method FromThis(b: nat) returns (h: nat)
      requires Valid() && b < |counts| && counts[b] > 0
      modifies this
      ensures Valid() && h == |old(slots)| && slots == old(slots) + [To(b)] && unchanged(`freed)
      ensures counts == old(counts)[b := old(counts)[b] + 1]
    {
      counts := counts[b := counts[b] + 1];
      PushCounts(slots, To(b));
      h := |slots|;
      slots := slots + [To(b)];
    }

    method CopyConstruct(other: nat) returns (h: nat)
      requires Valid() && InScope(other)
      modifies this
      ensures Valid() && h == |old(slots)| && slots == old(slots) + [old(slots)[other]]
      ensures |counts| == |old(counts)| && unchanged(`freed)
    {
      if slots[other].To? {
        SomePointer(slots, other);
        h := FromThis(slots[other].block);
      } else {
        h := MakeEmpty();
      }
    }

    method MoveConstruct(other: nat) returns (h: nat)
      requires Valid() && InScope(other)
      modifies this
      ensures Valid() && h == |old(slots)| && slots == old(slots)[other := Null] + [old(slots)[other]]
      ensures unchanged(`counts) && unchanged(`freed)
    {
      var m := slots[other];
      UpdateCounts(slots, other, Null);
      PushCounts(slots[other := Null], m);
      h := |slots|;
      slots := slots[other := Null] + [m];
    }

    /** Lets go of what a pointer points to; the last one out frees the object. */
    method Release(h: nat)
      requires Valid() && InScope(h)
      modifies this
      ensures Valid() && slots == old(slots)[h := Null] && |counts| == |old(counts)|
      ensures forall b | 0 <= b < |counts| ::
        freed[b] == old(freed)[b] + (if old(slots)[h] == To(b) && Count(old(slots), PointsTo(b)) == 1 then 1 else 0)
    {
      UpdateCounts(slots, h, Null);
      if slots[h] == Null {
        return;
      }
      SomePointer(slots, h);
      var b := slots[h].block;
      counts := counts[b := counts[b] - 1];
      if counts[b] == 0 {
        freed := freed[b := freed[b] + 1];
      }
      slots := slots[h := Null];
    }

    /** Copy assignment copies the other pointer exactly when it is not a self-assignment of a non-empty pointer. */
    method CopyAssign(h: nat, other: nat)
      requires Valid() && InScope(h) && InScope(other)
      modifies this
      ensures Valid() && |counts| == |old(counts)|
      ensures slots == old(slots)[h := if h == other then Null else old(slots)[other]]
      ensures slots[h] == old(slots)[other] <==> h != other || old(slots)[other] == Null
      ensures h == other ==> slots[other] == Null
    {
      Release(h);
      var m := slots[other];
      UpdateCounts(slots, h, m);
      if m.To? {
        SomePointer(slots, other);
        counts := counts[m.block := counts[m.block] + 1];
      }
      slots := slots[h := m];
    }

    /** Move assignment hands the pointer over exactly when it is not a self-assignment of a non-empty pointer. */
    method MoveAssign(h: nat, other: nat)
      requires Valid() && InScope(h) && InScope(other)
      modifies this
      ensures Valid() && |counts| == |old(counts)|
      ensures slots == old(slots)[other := Null][h := if h == other then Null else old(slots)[other]]
      ensures slots[h] == old(slots)[other] <==> h != other || old(slots)[other] == Null
    {
      Release(h);
      var m := slots[other];
      UpdateCounts(slots, other, Null);
      UpdateCounts(slots[other := Null], h, m);
      slots := slots[other := Null];
      slots := slots[h := m];
    }

    method Destroy(h: nat)
      requires Valid() && InScope(h)
      modifies this
      ensures Valid() && slots == old(slots)[h := Gone] && |counts| == |old(counts)|
      ensures forall b | 0 <= b < |counts| :: freed[b] >= old(freed)[b]
    {
      Release(h);
      UpdateCounts(slots, h, Gone);
      slots := slots[h := Gone];
    }

    /** The reported use count is the number of pointers that share the object. */
    method UseCount(h: nat) returns (n: nat)
      requires Valid() && InScope(h)
      ensures slots[h].To? ==> n == Count(slots, PointsTo(slots[h].block)) > 0
      ensures slots[h] == Null ==> n == 0
    {
      if slots[h].To? {
        SomePointer(slots, h);
        n := counts[slots[h].block];
      } else {
        n := 0;
      }
    }

    /** The operations a well-formed program can do next: pointers it uses are in scope, objects it calls into live. */
    predicate Legal(op: Op)
      reads this
    {
      match op
      case Make | MakeEmpty => true
      case FromThis(b) => b < |counts| && counts[b] > 0
      case CopyConstruct(o) => InScope(o)
      case MoveConstruct(o) => InScope(o)
      case CopyAssign(h, o) => InScope(h) && InScope(o)
      case MoveAssign(h, o) => InScope(h) && InScope(o)
      case Destroy(h) => InScope(h)
    }

    /** What the pointers point to, and how many blocks were made; counts and frees follow from it. */
    ghost function Now(): Picture
      reads this
    {
      Picture(slots, |counts|)
    }

    /** One operation, as `After` has it. */
    method Do(op: Op)
      requires Valid() && Legal(op)
      modifies this
      ensures Valid() && Now() == After(old(Now()), op)
    {
      match op
      case Make => var _ := Make();
      case MakeEmpty => var _ := MakeEmpty();
      case FromThis(b) => var _ := FromThis(b);
      case CopyConstruct(o) => var _ := CopyConstruct(o);
      case MoveConstruct(o) => var _ := MoveConstruct(o);
      case CopyAssign(h, o) => CopyAssign(h, o);
      case MoveAssign(h, o) => MoveAssign(h, o);
      case Destroy(h) => Destroy(h);
    }

    /**
     * Whole programs: as far as a program runs, no pointer ever points to a freed object, none is freed twice, and when
     * every pointer is gone or empty every object has been freed exactly once.  The program is carried out operation by
     * operation, up to the first that is not legal.
     */
    method Run(program: seq<Op>) returns (ran: nat)
      requires Valid()
      modifies this
      ensures Valid() && ran <= |program| && Now() == AfterAll(old(Now()), program[..ran])
      ensures ran < |program| ==> !Legal(program[ran])
      ensures forall i | 0 <= i < |slots| && slots[i].To? :: slots[i].block < |freed| && freed[slots[i].block] == 0
      ensures forall b | 0 <= b < |freed| :: freed[b] <= 1
      ensures (forall i | 0 <= i < |slots| :: !slots[i].To?) ==> forall b | 0 <= b < |freed| :: freed[b] == 1
    {
      ran := 0;
      while ran < |program| && Legal(program[ran])
        invariant Valid() && ran <= |program| && Now() == AfterAll(old(Now()), program[..ran])
      {
        assert program[..ran + 1][..ran] == program[..ran];
        Do(program[ran]);
        ran := ran + 1;
      }
      AllLive(slots, counts, freed);
    }
  }

  datatype Picture = Picture(slots: seq<Slot>, blocks: nat)

  /** The pointers after an operation; assigning a pointer to itself empties it. */
  ghost function After(p: Picture, op: Op): Picture
  {
    match op
    case Make => Picture(p.slots + [To(p.blocks)], p.blocks + 1)
    case MakeEmpty => p.(slots := p.slots + [Null])
    case FromThis(b) => p.(slots := p.slots + [To(b)])
    case CopyConstruct(o) => if o < |p.slots| then p.(slots := p.slots + [p.slots[o]]) else p
    case MoveConstruct(o) => if o < |p.slots| then p.(slots := p.slots[o := Null] + [p.slots[o]]) else p
    case CopyAssign(h, o) =>
      if h < |p.slots| && o < |p.slots| then p.(slots := p.slots[h := if h == o then Null else p.slots[o]]) else p
    case MoveAssign(h, o) =>
      if h < |p.slots| && o < |p.slots| then
        p.(slots := p.slots[o := Null][h := if h == o then Null else p.slots[o]])
      else p
    case Destroy(h) => if h < |p.slots| then p.(slots := p.slots[h := Gone]) else p
  }

  ghost function AfterAll(p: Picture, program: seq<Op>): Picture
  {
    if program == [] then p else After(AfterAll(p, program[..|program| - 1]), program[|program| - 1])
  }

  /** One more pointer object adds one to the count of what it points to. */
  lemma PushCounts(slots: seq<Slot>, m: Slot)
    ensures forall b: nat ::
              Count(slots + [m], PointsTo(b)) == Count(slots, PointsTo(b)) + (if m == To(b) then 1 else 0)
  {
    forall b: nat ensures Count(slots + [m], PointsTo(b)) == Count(slots, PointsTo(b)) + (if m == To(b) then 1 else 0) {
      CountPush(slots, m, PointsTo(b));
    }
  }

  /** Redirecting a pointer moves one from the old count to the new. */
  lemma UpdateCounts(slots: seq<Slot>, h: nat, m: Slot)
    requires h < |slots|
    ensures forall b: nat :: Count(slots[h := m], PointsTo(b))
                          == Count(slots, PointsTo(b)) - (if slots[h] == To(b) then 1 else 0)
                             + (if m == To(b) then 1 else 0)
  {
    forall b: nat
      ensures Count(slots[h := m], PointsTo(b))
           == Count(slots, PointsTo(b)) - (if slots[h] == To(b) then 1 else 0) + (if m == To(b) then 1 else 0)
    {
      CountUpdate(slots, h, m, PointsTo(b));
    }
  }

  lemma SomePointer(slots: seq<Slot>, h: nat)
    requires h < |slots| && slots[h].To?
    ensures Count(slots, PointsTo(slots[h].block)) > 0
  {
    CountExtremes(slots, PointsTo(slots[h].block));
  }

  lemma NoneYet(slots: seq<Slot>, b: nat)
    requires forall i | 0 <= i < |slots| && slots[i].To? :: slots[i].block < b
    ensures Count(slots, PointsTo(b)) == 0
  {
    CountExtremes(slots, PointsTo(b));
  }

  lemma AllLive(slots: seq<Slot>, counts: seq<nat>, freed: seq<nat>)
    requires |counts| == |freed|
    requires forall i | 0 <= i < |slots| && slots[i].To? :: slots[i].block < |counts|
    requires forall b | 0 <= b < |counts| ::
      counts[b] == Count(slots, PointsTo(b)) && freed[b] == (if counts[b] == 0 then 1 else 0)
    ensures forall i | 0 <= i < |slots| && slots[i].To? :: freed[slots[i].block] == 0
    ensures (forall i | 0 <= i < |slots| :: !slots[i].To?) ==> forall b | 0 <= b < |freed| :: freed[b] == 1
  {
    forall i | 0 <= i < |slots| && slots[i].To? ensures freed[slots[i].block] == 0 {
      SomePointer(slots, i);
    }
    if forall i | 0 <= i < |slots| :: !slots[i].To? {
      forall b | 0 <= b < |freed| ensures freed[b] == 1 {
        CountExtremes(slots, PointsTo(b));
      }
    }
  }
}
