/** mio's `Slab<T>`: a fixed-capacity container whose keys are the tokens
    of one range `[start, start + capacity)`.

    Which free token `insert` hands out depends on the slab's free list,
    which is not part of this model: the token is an input, `choice`, taken
    whenever it names a free token of the range, so that every free token
    can be the one handed out. Otherwise the lowest free token is taken.
    The contracts promise only that the token lies in the range, that it
    was not held, and that `insert` fails exactly when the slab is full. */
module Slabs {
  import opened Events

  datatype Slab<T> = Slab(start: Token, capacity: nat, entries: map<Token, T>) {

    /** Every held token lies in the slab's range. */
    ghost predicate Valid() {
      forall t :: t in entries ==> start <= t < start + capacity
    }

    predicate IsFull() {
      |entries| >= capacity
    }

    /** `Slab::remove`: frees `t`; a token that is not held is ignored. */
    function Remove(t: Token): (r: Slab<T>)
      ensures r.start == start && r.capacity == capacity
      ensures r.entries.Keys == entries.Keys - {t}
      ensures forall k :: k in r.entries ==> r.entries[k] == entries[k]
      ensures Valid() ==> r.Valid()
    {
      this.(entries := entries - {t})
    }
  }

  /** `Slab::new_starting_at(Token(start), capacity)`. */
  function Empty<T>(start: Token, capacity: nat): (s: Slab<T>)
    ensures s.start == start && s.capacity == capacity
    ensures s.Valid() && s.entries == map[]
  {
    Slab(start, capacity, map[])
  }

  /** The tokens a slab starting at `start` with `n` slots may hand out. */
  ghost function Span(start: nat, n: nat): (r: set<Token>)
    ensures |r| == n
    ensures forall t :: t in r <==> start <= t < start + n
    decreases n
  {
    if n == 0 then {} else Span(start, n - 1) + {start + n - 1}
  }

  /** A set inside another is no larger. */
  lemma {:induction false} SubsetSize(a: set<Token>, b: set<Token>)
    requires a <= b
    ensures |a| <= |b|
    decreases |a|
  {
    if a != {} {
      var x :| x in a;
      SubsetSize(a - {x}, b - {x});
    }
  }

  /** The lowest token of `[from, from + n)` that `entries` does not hold. */
  function FirstFree<T>(entries: map<Token, T>, from: Token, n: nat): (r: Option<Token>)
    ensures r.Some? ==> from <= r.value < from + n && r.value !in entries
    ensures r.None? ==> forall t :: from <= t < from + n ==> t in entries
    decreases n
  {
    if n == 0 then None
    else if from !in entries then Some(from)
    else FirstFree(entries, from + 1, n - 1)
  }

  /** `Slab::insert`: stores `v` under a free token of the range, or fails
      when the slab is full. */
  function Insert<T>(s: Slab<T>, v: T, choice: Token): (r: (Option<Token>, Slab<T>))
    ensures r.1.start == s.start && r.1.capacity == s.capacity
    ensures s.Valid() ==> r.1.Valid()
    ensures s.Valid() ==> (r.0.None? <==> s.IsFull())
    ensures r.0.None? ==> r.1 == s
    ensures r.0.Some? ==> s.start <= r.0.value < s.start + s.capacity && r.0.value !in s.entries
    ensures r.0.Some? ==> r.1.entries == s.entries[r.0.value := v]
    ensures s.Valid() && s.start <= choice < s.start + s.capacity && choice !in s.entries ==> r.0 == Some(choice)
  {
    if s.IsFull() then
      FullSlabHasNoFreeToken(s, choice);
      (None, s)
    else if s.start <= choice < s.start + s.capacity && choice !in s.entries then
      (Some(choice), s.(entries := s.entries[choice := v]))
    else
      match FirstFree(s.entries, s.start, s.capacity)
      case None =>
        FreeTokenFound(s);
        (None, s)
      case Some(t) => (Some(t), s.(entries := s.entries[t := v]))
  }

  /** A full slab holds every token of its range. */
  lemma FullSlabHasNoFreeToken<T>(s: Slab<T>, t: Token)
    requires s.IsFull()
    ensures s.Valid() && s.start <= t < s.start + s.capacity ==> t in s.entries
  {
    if s.Valid() && s.start <= t < s.start + s.capacity && t !in s.entries {
      var span := Span(s.start, s.capacity);
      assert s.entries.Keys <= span - {t};
      SubsetSize(s.entries.Keys, span - {t});
    }
  }

  /** A slab that is not full has a free token in its range. */
  lemma FreeTokenFound<T>(s: Slab<T>)
    requires !s.IsFull()
    ensures s.Valid() ==> FirstFree(s.entries, s.start, s.capacity).Some?
  {
    var span := Span(s.start, s.capacity);
    if s.Valid() && FirstFree(s.entries, s.start, s.capacity).None? {
      assert span <= s.entries.Keys;
      SubsetSize(span, s.entries.Keys);
    }
  }
}
