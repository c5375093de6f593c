/** What the programs of the actors have in common: the oracle they run against and the trail of steps they leave. */
module Programs {
  import opened Types
  import opened Transactions
  import opened World

  /** Everything a program cannot know, by the number of steps it has taken: what others do before the step, which
      database calls fail and as what, how a COMMIT ends, how the object store answers. */
  datatype Oracle = Oracle(
    meanwhile: (nat, Shared) -> Shared,
    databaseError: nat -> Option<ErrorClass>,
    commit: nat -> Fate,
    unknownAs: nat -> ErrorClass,
    storageError: nat -> Option<ErrorClass>,
    lengthKnown: nat -> bool,
    putStored: nat -> bool,
    reportsAbsent: nat -> bool)

  /** A COMMIT whose error is not looked at: acknowledged or not. */
  function Unsorted(o: Oracle, n: nat): (fate: Fate)
    ensures !fate.RolledBack? && (fate.Acked? <==> o.commit(n).Acked?)
  {
    if o.commit(n).RolledBack? then Lost(false) else o.commit(n)
  }

  datatype Step<L, E> = Step(before: Shared, at: L, ev: E, after: Shared, next: L)

  datatype Trail<L, E> = Start(s: Shared) | Then(path: Trail<L, E>, step: Step<L, E>)

  function First<L, E>(p: Trail<L, E>): Shared {
    if p.Start? then p.s else First(p.path)
  }

  function Last<L, E>(p: Trail<L, E>): Shared {
    if p.Start? then p.s else p.step.after
  }

  function Length<L, E>(p: Trail<L, E>): nat {
    if p.Start? then 0 else 1 + Length(p.path)
  }

  /** q goes on from p, and no step of the new part was taken at rest. */
  ghost predicate Within<L, E>(p: Trail<L, E>, q: Trail<L, E>, rest: L) {
    q == p || (q.Then? && q.step.at != rest && Within(p, q.path, rest))
  }

  /** q goes on from p by one call: its first new step leaves rest, and no later one is taken at rest. */
  ghost predicate Call<L, E>(p: Trail<L, E>, q: Trail<L, E>, rest: L) {
    q.Then? && if q.path == p then q.step.at == rest else q.step.at != rest && Call(p, q.path, rest)
  }

  /** q goes on from p. */
  ghost predicate Extends<L, E>(p: Trail<L, E>, q: Trail<L, E>) {
    q == p || (q.Then? && Extends(p, q.path))
  }

  /** The first step that q takes beyond p, when q goes on from p. */
  ghost function FirstStep<L, E>(p: Trail<L, E>, q: Trail<L, E>): Step<L, E>
    requires q.Then?
    decreases q
  {
    if q.path == p || q.path.Start? then q.step else FirstStep(p, q.path)
  }

  lemma {:induction false} FirstStepStays<L, E>(q: Trail<L, E>, r: Trail<L, E>, rest: L)
    requires q.Then? && Within(q, r, rest)
    ensures r.Then? && FirstStep(q.path, r) == q.step
    decreases r
  {
    if r != q {
      WithinLength(q, r.path, rest);
      FirstStepStays(q, r.path, rest);
    }
  }

  lemma {:induction false} WithinChain<L, E>(p: Trail<L, E>, q: Trail<L, E>, r: Trail<L, E>, rest: L)
    requires Within(p, q, rest) && Within(q, r, rest)
    ensures Within(p, r, rest)
    decreases r
  {
    if r != q { WithinChain(p, q, r.path, rest); }
  }

  lemma {:induction false} WithinLength<L, E>(p: Trail<L, E>, q: Trail<L, E>, rest: L)
    requires Within(p, q, rest)
    ensures Length(p) <= Length(q) && (Length(p) == Length(q) ==> p == q)
    decreases q
  {
    if q != p { WithinLength(p, q.path, rest); }
  }

  lemma {:induction false} CallChain<L, E>(p: Trail<L, E>, q: Trail<L, E>, r: Trail<L, E>, rest: L)
    requires Call(p, q, rest) && Within(q, r, rest)
    ensures Call(p, r, rest)
    decreases r
  {
    CallLonger(p, q, rest);
    WithinLength(q, r, rest);
    if r != q { CallChain(p, q, r.path, rest); WithinLength(q, r.path, rest); }
  }

  lemma {:induction false} CallLonger<L, E>(p: Trail<L, E>, q: Trail<L, E>, rest: L)
    requires Call(p, q, rest)
    ensures Length(p) < Length(q) && First(p) == First(q) && Extends(p, q)
    decreases q
  {
    if q.path != p { CallLonger(p, q.path, rest); }
  }

  lemma {:induction false} WithinExtends<L, E>(p: Trail<L, E>, q: Trail<L, E>, rest: L)
    requires Within(p, q, rest)
    ensures Extends(p, q)
    decreases q
  {
    if q != p { WithinExtends(p, q.path, rest); }
  }

  lemma {:induction false} ExtendsChain<L, E>(p: Trail<L, E>, q: Trail<L, E>, r: Trail<L, E>)
    requires Extends(p, q) && Extends(q, r)
    ensures Extends(p, r)
    decreases r
  {
    if r != q { ExtendsChain(p, q, r.path); }
  }

  lemma {:induction false} ExtendsFirst<L, E>(p: Trail<L, E>, q: Trail<L, E>)
    requires Extends(p, q)
    ensures First(q) == First(p)
    decreases q
  {
    if q != p { ExtendsFirst(p, q.path); }
  }

  lemma {:induction false} ExtendsLength<L, E>(p: Trail<L, E>, q: Trail<L, E>)
    requires Extends(p, q)
    ensures Length(p) <= Length(q)
    decreases q
  {
    if q != p { ExtendsLength(p, q.path); }
  }
}
