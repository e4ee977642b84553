/** `unique_function`: a move-only callable wrapper with a small buffer, over any program that uses it. */
module UniqueFunction {
  import opened Counting

  /** What a wrapper's variant holds: nothing, a heap object, or an object in its own buffer. `Gone` is out of scope. */
  datatype Holder = Gone | Empty | Heap(obj: nat) | Buffer(obj: nat)

  /** A wrapped callable object: which callable it carries, and how often it was destroyed. */
  datatype Object = Object(callable: nat, destroyed: nat)

  datatype Option<T> = None | Some(value: T)

  predicate Holding(s: Holder) { s.Heap? || s.Buffer? }

  function HoldsObject(o: nat): Holder -> bool { (s: Holder) => Holding(s) && s.obj == o }

  function LiveWith(f: nat): Object -> bool { (x: Object) => x.callable == f && x.destroyed == 0 }

  /**
   * Objects and wrappers match: an object is held by one wrapper and alive, or by none and destroyed once; and no
   * callable lives in two objects.
   */
  ghost predicate Matched(holders: seq<Holder>, objects: seq<Object>, made: nat)
  {
    && InTable(holders, objects)
    && (forall o | 0 <= o < |objects| ::
          objects[o].callable < made && objects[o].destroyed + Count(holders, HoldsObject(o)) == 1)
    && (forall f | 0 <= f < made :: AtMostOnce(objects, f))
  }

  ghost predicate AtMostOnce(objects: seq<Object>, f: nat) { Count(objects, LiveWith(f)) <= 1 }

  ghost predicate InTable(holders: seq<Holder>, objects: seq<Object>)
  {
    forall i | 0 <= i < |holders| && Holding(holders[i]) :: holders[i].obj < |objects|
  }

  /** The callable that a call through a wrapper reaches. */
  ghost function Callee(s: Holder, objects: seq<Object>): Option<nat>
    requires Holding(s) ==> s.obj < |objects|
  {
    if Holding(s) then Some(objects[s.obj].callable) else None
  }

  ghost function Reached(holders: seq<Holder>, objects: seq<Object>): (cs: seq<Option<nat>>)
    requires InTable(holders, objects)
    ensures |cs| == |holders| && forall i | 0 <= i < |cs| :: cs[i] == Callee(holders[i], objects)
  {
    seq(|holders|, i requires 0 <= i < |holders| => Callee(holders[i], objects))
  }

  /** Where a wrapper's callable is, if it has any. */
  datatype Place = Outside | Nowhere | OnHeap | InBuffer

  function PlaceOf(s: Holder): Place
  {
    match s
    case Gone => Outside
    case Empty => Nowhere
    case Heap(_) => OnHeap
    case Buffer(_) => InBuffer
  }

  ghost function Places(holders: seq<Holder>): (ps: seq<Place>)
    ensures |ps| == |holders| && forall i | 0 <= i < |ps| :: ps[i] == PlaceOf(holders[i])
  {
    seq(|holders|, i requires 0 <= i < |holders| => PlaceOf(holders[i]))
  }

  /** What the users of the wrappers see: which callable each reaches, where it is kept, and the next number. */
  datatype Picture = Picture(places: seq<Place>, callees: seq<Option<nat>>, made: nat)

  ghost function SmallOrLarge(small: bool): Place { if small then InBuffer else OnHeap }

  /** The wrappers after an operation, unless it is a self-move of a small callable. */
  ghost function After(p: Picture, op: Op): Picture
    requires |p.places| == |p.callees|
    ensures |After(p, op).places| == |After(p, op).callees|
  {
    var n := |p.places|;
    match op
    case MakeEmpty => Picture(p.places + [Nowhere], p.callees + [None], p.made)
    case Make(small) => Picture(p.places + [SmallOrLarge(small)], p.callees + [Some(p.made)], p.made + 1)
    case MoveConstruct(o) =>
      if o >= n then p
      else Picture(p.places[o := Nowhere] + [p.places[o]], p.callees[o := None] + [p.callees[o]], p.made)
    case MoveAssign(h, o) =>
      if h >= n || o >= n then p
      else if h == o then Picture(p.places[h := Nowhere], p.callees[h := None], p.made)
      else Picture(p.places[o := Nowhere][h := p.places[o]], p.callees[o := None][h := p.callees[o]], p.made)
    case Assign(h, small) =>
      if h < n then Picture(p.places[h := SmallOrLarge(small)], p.callees[h := Some(p.made)], p.made + 1) else p
    case Destroy(h) => if h < n then Picture(p.places[h := Outside], p.callees[h := None], p.made) else p
  }

  ghost function AfterAll(p: Picture, program: seq<Op>): Picture
    requires |p.places| == |p.callees|
    ensures |AfterAll(p, program).places| == |AfterAll(p, program).callees|
  {
    if program == [] then p else After(AfterAll(p, program[..|program| - 1]), program[|program| - 1])
  }

  // ---- the four changes that keep the match ----

  function Destroyed(objects: seq<Object>, s: Holder): seq<Object>
    requires Holding(s) ==> s.obj < |objects|
  {
    if Holding(s) then objects[s.obj := objects[s.obj].(destroyed := objects[s.obj].destroyed + 1)] else objects
  }

  lemma HeldIsLive(holders: seq<Holder>, objects: seq<Object>, made: nat, h: nat)
    requires Matched(holders, objects, made) && h < |holders| && Holding(holders[h])
    ensures objects[holders[h].obj].destroyed == 0 && Count(holders, HoldsObject(holders[h].obj)) == 1
  {
    CountExtremes(holders, HoldsObject(holders[h].obj));
  }

  /** Destroying what a wrapper holds leaves its callable in no live object. */
  lemma DropCallable(objects: seq<Object>, o: nat)
    requires o < |objects| && objects[o].destroyed == 0 && AtMostOnce(objects, objects[o].callable)
    ensures var after := objects[o := objects[o].(destroyed := 1)];
      && Count(after, LiveWith(objects[o].callable)) == 0
      && forall f: nat | AtMostOnce(objects, f) :: AtMostOnce(after, f)
  {
    var x := objects[o].(destroyed := 1);
    forall f: nat
      ensures Count(objects[o := x], LiveWith(f)) == Count(objects, LiveWith(f)) - (if f == x.callable then 1 else 0)
    {
      CountUpdate(objects, o, x, LiveWith(f));
    }
    CountExtremes(objects, LiveWith(x.callable));
  }

  /** The object in wrapper `h`, if any, is destroyed and the wrapper left without one. */
  lemma Drop(holders: seq<Holder>, objects: seq<Object>, made: nat, h: nat, s: Holder)
    requires Matched(holders, objects, made) && h < |holders| && !Holding(s)
    ensures Matched(holders[h := s], Destroyed(objects, holders[h]), made)
  {
    var held := holders[h];
    forall o: nat
      ensures Count(holders[h := s], HoldsObject(o))
           == Count(holders, HoldsObject(o)) - (if HoldsObject(o)(held) then 1 else 0)
    {
      CountUpdate(holders, h, s, HoldsObject(o));
    }
    if Holding(held) {
      HeldIsLive(holders, objects, made, h);
      DropCallable(objects, held.obj);
    }
  }

  /** A new object carrying a callable that lives nowhere else goes into a wrapper without one. */
  lemma Put(holders: seq<Holder>, objects: seq<Object>, made: nat, h: nat, s: Holder, f: nat)
    requires Matched(holders, objects, made) && h < |holders| && !Holding(holders[h])
    requires Holding(s) && s.obj == |objects| && f < made && Count(objects, LiveWith(f)) == 0
    ensures Matched(holders[h := s], objects + [Object(f, 0)], made)
  {
    forall o: nat
      ensures Count(holders[h := s], HoldsObject(o)) == Count(holders, HoldsObject(o)) + (if o == s.obj then 1 else 0)
    {
      CountUpdate(holders, h, s, HoldsObject(o));
    }
    CountExtremes(holders, HoldsObject(s.obj));
    forall g | 0 <= g < made ensures AtMostOnce(objects + [Object(f, 0)], g) {
      assert AtMostOnce(objects, g);
      CountPush(objects, Object(f, 0), LiveWith(g));
    }
  }

  /** A heap object is handed from one wrapper to another that holds nothing. */
  lemma Hand(holders: seq<Holder>, objects: seq<Object>, made: nat, h: nat, other: nat)
    requires Matched(holders, objects, made) && h < |holders| && other < |holders| && h != other
    requires !Holding(holders[h]) && Holding(holders[other])
    ensures Matched(holders[other := Empty][h := holders[other]], objects, made)
  {
    forall o: nat
      ensures Count(holders[other := Empty][h := holders[other]], HoldsObject(o)) == Count(holders, HoldsObject(o))
    {
      CountUpdate(holders, other, Empty, HoldsObject(o));
      CountUpdate(holders[other := Empty], h, holders[other], HoldsObject(o));
    }
  }

  lemma Grow(holders: seq<Holder>, objects: seq<Object>, made: nat)
    requires Matched(holders, objects, made)
    ensures Matched(holders + [Empty], objects, made)
  {
    forall o: nat ensures Count(holders + [Empty], HoldsObject(o)) == Count(holders, HoldsObject(o)) {
      CountPush(holders, Empty, HoldsObject(o));
    }
  }

  /** A callable never seen before lives nowhere. */
  lemma Unseen(holders: seq<Holder>, objects: seq<Object>, made: nat)
    requires Matched(holders, objects, made)
    ensures Count(objects, LiveWith(made)) == 0 && Matched(holders, objects, made + 1)
  {
    CountExtremes(objects, LiveWith(made));
    assert AtMostOnce(objects, made);
  }

  datatype Op =
    | MakeEmpty
    | Make(small: bool)
    | MoveConstruct(other: nat)
    | MoveAssign(self: nat, other: nat)
    | Assign(self: nat, small: bool)
    | Destroy(self: nat)

  class Wrappers {
    var holders: seq<Holder>
    var objects: seq<Object>
    /** The number of callables given to wrappers so far; each gets the next number. */
    var made: nat
    /** How often an object was moved from after its destruction. */
    var misused: nat

    ghost predicate Valid()
      reads this
    {
      Matched(holders, objects, made) && misused == 0
    }

    predicate InScope(h: nat)
      reads this
    {
      h < |holders| && holders[h] != Gone
    }

    /** The callables that calls through the wrappers reach. */
    ghost function Callees(): (cs: seq<Option<nat>>)
      requires Matched(holders, objects, made)
      reads this
    {
      Reached(holders, objects)
    }

    ghost function Now(): (p: Picture)
      requires Matched(holders, objects, made)
      reads this
      ensures |p.places| == |p.callees|
    {
      Picture(Places(holders), Callees(), made)
    }

    constructor ()
      ensures Valid() && holders == []
    {
      holders, objects, made, misused := [], [], 0, 0;
    }

    method MakeEmpty() returns (h: nat)
      requires Valid()
      modifies this
      ensures Valid() && h == |old(holders)| && holders == old(holders) + [Empty] && made == old(made)
      ensures Callees() == old(Callees()) + [None]
    {
      Grow(holders, objects, made);
      h := |holders|;
      holders := holders + [Empty];
    }

    /** Wraps a callable: in the buffer when it is small, on the heap otherwise. */
    method Make(small: bool) returns (h: nat)
      requires Valid()
      modifies this
      ensures Valid() && |holders| == |old(holders)| + 1 && h == |old(holders)| && made == old(made) + 1
      ensures Places(holders) == Places(old(holders)) + [SmallOrLarge(small)]
      ensures Callees() == old(Callees()) + [Some(old(made))]
    {
      var s := if small then Buffer(|objects|) else Heap(|objects|);
      Wrapped(holders, objects, made, s);
      h := |holders|;
      objects := objects + [Object(made, 0)];
      made := made + 1;
      holders := holders + [s];
    }

    /** The callable's object is destroyed where it is held; the variant itself is not reset. */
    method DestroyHeld(h: nat)
      requires h < |holders| && (Holding(holders[h]) ==> holders[h].obj < |objects|)
      modifies this`objects
      ensures objects == Destroyed(old(objects), holders[h])
    {
      if holders[h].Heap? { DestroyAt(holders[h].obj); }
      if holders[h].Buffer? { DestroyAt(holders[h].obj); }
    }

    /**
     * The second half of a move, after the variant was copied over: an object in the other's buffer is moved to a new
     * object in this buffer and destroyed, and the other wrapper is reset.
     */
    method TakeOver(h: nat, other: nat)
      requires h < |holders| && other < |holders| && holders[h] == holders[other]
      requires Holding(holders[h]) ==> holders[h].obj < |objects|
      modifies this
      ensures made == old(made)
      ensures misused == old(misused)
        + (if old(holders[other].Buffer? && objects[holders[other].obj].destroyed > 0) then 1 else 0)
      ensures !old(holders[other]).Buffer? ==> objects == old(objects) && holders == old(holders)[other := Empty]
      ensures old(holders[other]).Buffer? ==>
        var o := old(holders)[other].obj;
        && objects == Destroyed(old(objects), if h == other then Empty else old(holders)[other])
                      + [Object(old(objects)[o].callable, if h == other then 1 else 0)]
        && holders == old(holders)[h := Buffer(|old(objects)|)][other := Empty]
    {
      if holders[other].Buffer? {
        var o := holders[other].obj;
        if objects[o].destroyed > 0 {
          misused := misused + 1;
        }
        objects := objects + [Object(objects[o].callable, 0)];
        holders := holders[h := Buffer(|objects| - 1)];
        // what now lies at the other's address: its old object, or the new one when both are the same wrapper
        DestroyAt(if h == other then |objects| - 1 else o);
      }
      holders := holders[other := Empty];
    }

    method DestroyAt(o: nat)
      requires o < |objects|
      modifies this`objects
      ensures objects == old(objects)[o := old(objects)[o].(destroyed := old(objects)[o].destroyed + 1)]
    {
      objects := objects[o := objects[o].(destroyed := objects[o].destroyed + 1)];
    }

    /** The new wrapper reaches the callable, the old one is empty, every other wrapper is as before. */
    method MoveConstruct(other: nat) returns (h: nat)
      requires Valid() && InScope(other)
      modifies this
      ensures Valid() && h == |old(holders)| && made == old(made)
      ensures Places(holders) == Places(old(holders))[other := Nowhere] + [PlaceOf(old(holders)[other])]
      ensures Callees() == old(Callees())[other := None] + [old(Callees())[other]]
    {
      Grow(holders, objects, made);
      MoveMatched(holders + [Empty], objects, made, |holders|, other);
      h := |holders|;
      holders := holders + [holders[other]];
      assert holders[h := Buffer(|objects|)][other := Empty]
          == (old(holders) + [Empty])[other := Empty][h := Buffer(|objects|)];
      assert holders[other := Empty] == (old(holders) + [Empty])[other := Empty][h := old(holders)[other]];
      if Holding(holders[other]) { HeldIsLive(old(holders), objects, made, other); }
      TakeOver(h, other);
    }

    /**
     * Moving one wrapper onto another is safe exactly when it is not a self-move of a small callable; the target then
     * reaches the callable, whatever it held before is destroyed, and the source is empty.
     */
    method MoveAssign(h: nat, other: nat)
      requires Valid() && InScope(h) && InScope(other)
      modifies this
      ensures Valid() <==> h != other || !old(holders[h]).Buffer?
      ensures made == old(made)
      ensures h != other ==>
        Places(holders) == Places(old(holders))[other := Nowhere][h := PlaceOf(old(holders)[other])]
      ensures h == other ==> Places(holders) == Places(old(holders))[h := Nowhere]
      ensures h != other ==> Callees() == old(Callees())[other := None][h := old(Callees())[other]]
      ensures h == other && !old(holders[h]).Buffer? ==> Callees() == old(Callees())[h := None]
    {
      if Holding(holders[h]) { HeldIsLive(holders, objects, made, h); }
      if Holding(holders[other]) { HeldIsLive(holders, objects, made, other); }
      Apart(holders, objects, made, h, other);
      DestroyHeld(h);
      holders := holders[h := holders[other]];
      assert h == other ==> holders == old(holders);
      TakeOver(h, other);
      if h != other {
        MoveAssigned(old(holders), old(objects), made, h, other, holders, objects);
      } else {
        SelfMoved(old(holders), old(objects), made, h, holders, objects);
      }
    }

    /** Assigning a callable destroys what the wrapper held and makes it reach the new one. */
    method Assign(h: nat, small: bool)
      requires Valid() && InScope(h)
      modifies this
      ensures Valid() && |holders| == |old(holders)| && made == old(made) + 1
      ensures Places(holders) == Places(old(holders))[h := SmallOrLarge(small)]
      ensures Callees() == old(Callees())[h := Some(old(made))]
    {
      var s := if small then Buffer(|objects|) else Heap(|objects|);
      Assigned(holders, objects, made, h, s);
      DestroyHeld(h);
      objects := objects + [Object(made, 0)];
      made := made + 1;
      holders := holders[h := s];
    }

    method Destroy(h: nat)
      requires Valid() && InScope(h)
      modifies this
      ensures Valid() && made == old(made) && holders == old(holders)[h := Gone]
      ensures Callees() == old(Callees())[h := None]
    {
      Drop(holders, objects, made, h, Gone);
      DestroyHeld(h);
      holders := holders[h := Gone];
    }

    /** Wrappers used are in scope, and no small callable is moved onto itself. */
    predicate Legal(op: Op)
      reads this
    {
      match op
      case MakeEmpty => true
      case Make(_) => true
      case MoveConstruct(o) => InScope(o)
      case MoveAssign(h, o) => InScope(h) && InScope(o) && (h != o || !holders[h].Buffer?)
      case Assign(h, _) => InScope(h)
      case Destroy(h) => InScope(h)
    }

    /** One operation, as `After` has it. */
    method Do(op: Op)
      requires Valid() && Legal(op)
      modifies this
      ensures Valid() && Now() == After(old(Now()), op)
    {
      match op
      case MakeEmpty => var _ := MakeEmpty();
      case Make(small) => var _ := Make(small);
      case MoveConstruct(o) => var _ := MoveConstruct(o);
      case MoveAssign(h, o) => MoveAssign(h, o);
      case Assign(h, small) => Assign(h, small);
      case Destroy(h) => Destroy(h);
    }

    /**
     * Whole programs: no object is used after its destruction, two wrappers never reach the same callable, and once all
     * wrappers are empty or gone every object was destroyed exactly once.  The program is carried out operation by
     * operation, up to the first that is not legal.
     */
    method Run(program: seq<Op>) returns (ran: nat)
      requires Valid()
      modifies this
      ensures Valid() && ran <= |program| && misused == 0
      ensures Now() == AfterAll(old(Now()), program[..ran])
      ensures ran < |program| ==> !Legal(program[ran])
      ensures forall i, j | 0 <= i < j < |holders| && Callees()[i].Some? :: Callees()[i] != Callees()[j]
      ensures (forall i | 0 <= i < |holders| :: Callees()[i] == None) ==> forall x | x in objects :: x.destroyed == 1
    {
      ran := 0;
      while ran < |program| && Legal(program[ran])
        invariant Valid() && ran <= |program| && Now() == AfterAll(old(Now()), program[..ran])
      {
        assert program[..ran + 1][..ran] == program[..ran];
        Do(program[ran]);
        ran := ran + 1;
      }
      forall i, j | 0 <= i < j < |holders| && Callees()[i].Some? ensures Callees()[i] != Callees()[j] {
        if Callees()[j].Some? {
          CalleesApart(holders, objects, made, i, j);
        }
      }
      if forall i | 0 <= i < |holders| :: Callees()[i] == None {
        assert forall i | 0 <= i < |holders| :: Callees()[i] == Callee(holders[i], objects);
        AllDestroyed(holders, objects, made);
      }
    }
  }

  /** Two wrappers never hold the same object. */
  lemma Apart(holders: seq<Holder>, objects: seq<Object>, made: nat, i: nat, j: nat)
    requires Matched(holders, objects, made) && i < |holders| && j < |holders|
    ensures i != j && Holding(holders[i]) && Holding(holders[j]) ==> holders[i].obj != holders[j].obj
  {
    if i != j && Holding(holders[i]) {
      var p := HoldsObject(holders[i].obj);
      HeldIsLive(holders, objects, made, i);
      CountUpdate(holders, i, Empty, p);
      CountExtremes(holders[i := Empty], p);
      assert holders[i := Empty][j] == holders[j];
    }
  }

  lemma CalleesApart(holders: seq<Holder>, objects: seq<Object>, made: nat, i: nat, j: nat)
    requires Matched(holders, objects, made) && i < |holders| && j < |holders| && i != j
    requires Holding(holders[i]) && Holding(holders[j])
    ensures objects[holders[i].obj].callable != objects[holders[j].obj].callable
  {
    Apart(holders, objects, made, i, j);
    HeldIsLive(holders, objects, made, i);
    HeldIsLive(holders, objects, made, j);
    var a, b := holders[i].obj, holders[j].obj;
    DropCallable(objects, a);
    CountExtremes(objects[a := objects[a].(destroyed := 1)], LiveWith(objects[a].callable));
    assert objects[a := objects[a].(destroyed := 1)][b] == objects[b];
  }

  lemma AllDestroyed(holders: seq<Holder>, objects: seq<Object>, made: nat)
    requires Matched(holders, objects, made) && forall i | 0 <= i < |holders| :: !Holding(holders[i])
    ensures forall x | x in objects :: x.destroyed == 1
  {
    forall o | 0 <= o < |objects| ensures objects[o].destroyed == 1 {
      CountExtremes(holders, HoldsObject(o));
    }
  }

  /** Moving from one wrapper to another that holds nothing keeps the match, small callable or not. */
  lemma MoveMatched(holders: seq<Holder>, objects: seq<Object>, made: nat, h: nat, other: nat)
    requires Matched(holders, objects, made) && h < |holders| && other < |holders| && h != other && !Holding(holders[h])
    ensures holders[other].Buffer? ==>
      Matched(holders[other := Empty][h := Buffer(|objects|)],
              Destroyed(objects, holders[other]) + [Object(objects[holders[other].obj].callable, 0)], made)
    ensures !holders[other].Buffer? ==>
      Matched(holders[other := Empty][h := if Holding(holders[other]) then holders[other] else Empty], objects, made)
  {
    if holders[other].Buffer? {
      var o := holders[other].obj;
      HeldIsLive(holders, objects, made, other);
      Drop(holders, objects, made, other, Empty);
      DropCallable(objects, o);
      Put(holders[other := Empty], Destroyed(objects, holders[other]), made, h, Buffer(|objects|), objects[o].callable);
    } else if holders[other].Heap? {
      Hand(holders, objects, made, h, other);
    } else {
      Drop(holders, objects, made, other, Empty);
      Drop(holders[other := Empty], objects, made, h, Empty);
    }
  }

  /** A new wrapper is given a callable never seen before. */
  lemma Wrapped(holders: seq<Holder>, objects: seq<Object>, made: nat, s: Holder)
    requires Matched(holders, objects, made) && Holding(s) && s.obj == |objects|
    ensures Matched(holders + [s], objects + [Object(made, 0)], made + 1)
    ensures Reached(holders + [s], objects + [Object(made, 0)]) == Reached(holders, objects) + [Some(made)]
  {
    WrappedMatched(holders, objects, made, s);
  }

  lemma WrappedMatched(holders: seq<Holder>, objects: seq<Object>, made: nat, s: Holder)
    requires Matched(holders, objects, made) && Holding(s) && s.obj == |objects|
    ensures Matched(holders + [s], objects + [Object(made, 0)], made + 1)
  {
    Unseen(holders, objects, made);
    Grow(holders, objects, made + 1);
    Put(holders + [Empty], objects, made + 1, |holders|, s, made);
    assert (holders + [Empty])[|holders| := s] == holders + [s];
  }

  /** A wrapper is given a callable never seen before in place of what it held. */
  lemma Assigned(holders: seq<Holder>, objects: seq<Object>, made: nat, h: nat, s: Holder)
    requires Matched(holders, objects, made) && h < |holders| && Holding(s) && s.obj == |objects|
    ensures var objects' := Destroyed(objects, holders[h]) + [Object(made, 0)];
      && Matched(holders[h := s], objects', made + 1)
      && Reached(holders[h := s], objects') == Reached(holders, objects)[h := Some(made)]
  {
    AssignedMatched(holders, objects, made, h, s);
    var rest := Destroyed(objects, holders[h]);
    assert forall o | 0 <= o < |objects| :: rest[o].callable == objects[o].callable;
  }

  lemma AssignedMatched(holders: seq<Holder>, objects: seq<Object>, made: nat, h: nat, s: Holder)
    requires Matched(holders, objects, made) && h < |holders| && Holding(s) && s.obj == |objects|
    ensures Matched(holders[h := s], Destroyed(objects, holders[h]) + [Object(made, 0)], made + 1)
  {
    Drop(holders, objects, made, h, Empty);
    Unseen(holders[h := Empty], Destroyed(objects, holders[h]), made);
    Put(holders[h := Empty], Destroyed(objects, holders[h]), made + 1, h, s, made);
    assert holders[h := Empty][h := s] == holders[h := s];
  }

  /** The outcome of a move assignment between two wrappers. */
  ghost predicate MoveOutcome(holders: seq<Holder>, objects: seq<Object>, h: nat, other: nat,
                              holders': seq<Holder>, objects': seq<Object>)
    requires h < |holders| && other < |holders| && InTable(holders, objects)
  {
    var rest := Destroyed(objects, holders[h]);
    if holders[other].Buffer? then
      && objects' == Destroyed(rest, holders[other]) + [Object(rest[holders[other].obj].callable, 0)]
      && holders' == holders[h := holders[other]][h := Buffer(|objects|)][other := Empty]
    else
      objects' == rest && holders' == holders[h := holders[other]][other := Empty]
  }

  lemma MoveAssigned(holders: seq<Holder>, objects: seq<Object>, made: nat, h: nat, other: nat,
                     holders': seq<Holder>, objects': seq<Object>)
    requires Matched(holders, objects, made) && h < |holders| && other < |holders| && h != other
    requires holders[h] != Gone && holders[other] != Gone && MoveOutcome(holders, objects, h, other, holders', objects')
    ensures Matched(holders', objects', made)
    ensures Reached(holders', objects')
         == Reached(holders, objects)[other := None][h := Callee(holders[other], objects)]
    ensures Places(holders') == Places(holders)[other := Nowhere][h := PlaceOf(holders[other])]
  {
    MoveAssignedMatched(holders, objects, made, h, other, holders', objects');
    Apart(holders, objects, made, h, other);
    MoveAssignedReached(holders, objects, h, other, holders', objects');
  }

  lemma MoveAssignedMatched(holders: seq<Holder>, objects: seq<Object>, made: nat, h: nat, other: nat,
                            holders': seq<Holder>, objects': seq<Object>)
    requires Matched(holders, objects, made) && h < |holders| && other < |holders| && h != other
    requires holders[h] != Gone && holders[other] != Gone && MoveOutcome(holders, objects, h, other, holders', objects')
    ensures Matched(holders', objects', made)
  {
    Drop(holders, objects, made, h, Empty);
    MoveMatched(holders[h := Empty], Destroyed(objects, holders[h]), made, h, other);
    if holders[other].Buffer? {
      assert holders' == holders[h := Empty][other := Empty][h := Buffer(|objects|)];
    } else {
      assert holders' == holders[h := Empty][other := Empty][h := holders[other]];
    }
  }

  lemma MoveAssignedReached(holders: seq<Holder>, objects: seq<Object>, h: nat, other: nat,
                            holders': seq<Holder>, objects': seq<Object>)
    requires InTable(holders, objects) && InTable(holders', objects')
    requires h < |holders| && other < |holders| && h != other
    requires MoveOutcome(holders, objects, h, other, holders', objects')
    ensures Reached(holders', objects')
         == Reached(holders, objects)[other := None][h := Callee(holders[other], objects)]
  {
    assert |objects'| >= |objects| && forall o | 0 <= o < |objects| :: objects'[o].callable == objects[o].callable;
    forall i | 0 <= i < |holders|
      ensures Callee(holders'[i], objects')
           == Reached(holders, objects)[other := None][h := Callee(holders[other], objects)][i]
    {
    }
  }

  /** A wrapper moved onto itself ends up empty; the match is kept, whatever the move read. */
  lemma SelfMoved(holders: seq<Holder>, objects: seq<Object>, made: nat, h: nat,
                  holders': seq<Holder>, objects': seq<Object>)
    requires Matched(holders, objects, made) && h < |holders| && holders' == holders[h := Empty]
    requires objects' == Destroyed(objects, holders[h])
          || (holders[h].Buffer?
              && objects' == Destroyed(objects, holders[h]) + [Object(objects[holders[h].obj].callable, 1)])
    ensures holders[h].Buffer? || Matched(holders', objects', made)
    ensures InTable(holders', objects') && Reached(holders', objects') == Reached(holders, objects)[h := None]
    ensures Places(holders') == Places(holders)[h := Nowhere]
  {
    Drop(holders, objects, made, h, Empty);
  }
}
