/**
 * Compiling a discovery filter into a WHERE clause with numbered placeholders, and what the clause
 * means under SQL's three-valued logic.
 */
module DiscoveryFilter {
  import opened Options

  datatype Point = Point(lat: real, lng: real)
  datatype Circle = Circle(lat: real, lng: real, radius: real)

  datatype Filter = Filter(category: Option<string>, startsAfter: Option<int>, startsBefore: Option<int>,
                           minPrice: Option<int>, maxPrice: Option<int>, near: Option<Circle>)

  /** One event with its cheapest tier; NULL columns are `None`. */
  datatype Row = Row(published: bool, geom: Option<Point>, category: string, startsAt: Option<int>,
                     minPrice: Option<int>)

  datatype Value = Number(x: real) | Text(s: string) | Time(t: int) | Whole(n: int)

  /** A condition of the clause; numbers are placeholders, counted from 1. */
  datatype Cond =
    | IsPublished | HasGeom | InRadius(lng: nat, lat: nat, radius: nat)
    | CategoryIs(n: nat) | StartsFrom(n: nat) | StartsUntil(n: nat) | PriceFrom(n: nat) | PriceUpTo(n: nat)

  // ---------------------------------------------------------------- what SQL makes of a clause

  datatype Truth = True | False | Unknown

  function Of(b: bool): Truth {
    if b then True else False
  }

  function And(a: Truth, b: Truth): Truth {
    if a == False || b == False then False else if a == Unknown || b == Unknown then Unknown else True
  }

  /** The argument a placeholder stands for, `None` when there is none. */
  function Arg(args: seq<Value>, n: nat): Option<Value> {
    if 1 <= n <= |args| then Some(args[n - 1]) else None
  }

  /** `None` is an error of the statement: a placeholder without argument or of the wrong type. */
  function Eval(c: Cond, args: seq<Value>, row: Row, within: (Point, real, real, real) -> bool): Option<Truth> {
    match c
    case IsPublished => Some(Of(row.published))
    case HasGeom => Some(Of(row.geom.Some?))
    case InRadius(x, y, r) =>
      (match (Arg(args, x), Arg(args, y), Arg(args, r))
       case (Some(Number(lng)), Some(Number(lat)), Some(Number(radius))) =>
         Some(if row.geom.None? then Unknown else Of(within(row.geom.value, lng, lat, radius)))
       case _ => None)
    case CategoryIs(n) =>
      (match Arg(args, n) case Some(Text(s)) => Some(Of(row.category == s)) case _ => None)
    case StartsFrom(n) =>
      (match Arg(args, n)
       case Some(Time(t)) => Some(if row.startsAt.None? then Unknown else Of(row.startsAt.value >= t))
       case _ => None)
    case StartsUntil(n) =>
      (match Arg(args, n)
       case Some(Time(t)) => Some(if row.startsAt.None? then Unknown else Of(row.startsAt.value <= t))
       case _ => None)
    case PriceFrom(n) =>
      (match Arg(args, n)
       case Some(Whole(p)) => Some(if row.minPrice.None? then Unknown else Of(row.minPrice.value >= p))
       case _ => None)
    case PriceUpTo(n) =>
      (match Arg(args, n)
       case Some(Whole(p)) => Some(if row.minPrice.None? then Unknown else Of(row.minPrice.value <= p))
       case _ => None)
  }

  /** The conditions joined by AND. */
  function Where(conds: seq<Cond>, args: seq<Value>, row: Row,
                 within: (Point, real, real, real) -> bool): Option<Truth> {
    if |conds| == 0 then Some(True)
    else
      match (Where(conds[..|conds| - 1], args, row, within), Eval(conds[|conds| - 1], args, row, within))
      case (Some(a), Some(b)) => Some(And(a, b))
      case _ => None
  }

  // ---------------------------------------------------------------- what the filter asks for

  predicate NearOk(f: Filter, row: Row, within: (Point, real, real, real) -> bool) {
    f.near.None? || (row.geom.Some? && within(row.geom.value, f.near.value.lng, f.near.value.lat, f.near.value.radius))
  }

  predicate FromOk(bound: Option<int>, column: Option<int>) {
    bound.None? || (column.Some? && column.value >= bound.value)
  }

  predicate UpToOk(bound: Option<int>, column: Option<int>) {
    bound.None? || (column.Some? && column.value <= bound.value)
  }

  /** Published, and every supplied bound present in the row and satisfied. */
  predicate Matches(f: Option<Filter>, row: Row, within: (Point, real, real, real) -> bool) {
    row.published &&
    (f.Some? ==>
       && NearOk(f.value, row, within)
       && (f.value.category.None? || f.value.category.value == row.category)
       && FromOk(f.value.startsAfter, row.startsAt) && UpToOk(f.value.startsBefore, row.startsAt)
       && FromOk(f.value.minPrice, row.minPrice) && UpToOk(f.value.maxPrice, row.minPrice))
  }

  // ---------------------------------------------------------------- appending conditions

  predicate Uses(c: Cond, n: int) {
    match c
    case IsPublished => false
    case HasGeom => false
    case InRadius(x, y, r) => n == x || n == y || n == r
    case _ => n == c.n
  }

  /** Every placeholder has an argument and every argument a placeholder. */
  ghost predicate Linked(conds: seq<Cond>, args: seq<Value>) {
    && (forall i, n :: 0 <= i < |conds| && Uses(conds[i], n) ==> 1 <= n <= |args|)
    && (forall n :: 1 <= n <= |args| ==> Used(conds, n))
  }

  ghost predicate Used(conds: seq<Cond>, n: int) {
    exists i :: 0 <= i < |conds| && Uses(conds[i], n)
  }

  /** Later arguments never change what earlier conditions mean. */
  lemma {:induction false} WhereIgnoresLaterArgs(conds: seq<Cond>, args: seq<Value>, more: seq<Value>, row: Row,
                                                 within: (Point, real, real, real) -> bool)
    requires forall i, n :: 0 <= i < |conds| && Uses(conds[i], n) ==> 1 <= n <= |args|
    ensures Where(conds, args + more, row, within) == Where(conds, args, row, within)
  {
    if |conds| > 0 {
      var m := |conds| - 1;
      WhereIgnoresLaterArgs(conds[..m], args, more, row, within);
      var c := conds[m];
      assert forall n :: Uses(c, n) ==> Arg(args + more, n) == Arg(args, n);
      if c.InRadius? {
        assert Uses(c, c.lng) && Uses(c, c.lat) && Uses(c, c.radius);
      } else if !c.IsPublished? && !c.HasGeom? {
        assert Uses(c, c.n);
      }
    }
  }

  /** The clause is well formed and keeps exactly the rows that `part` of a filter asks for. */
  ghost predicate Keeps(conds: seq<Cond>, args: seq<Value>, part: Filter, within: (Point, real, real, real) -> bool) {
    && Linked(conds, args)
    && forall row :: Where(conds, args, row, within).Some? &&
                     (Where(conds, args, row, within) == Some(True) <==> Matches(Some(part), row, within))
  }

  /** Appending one condition with its arguments extends the part of the filter already honoured. */
  lemma {:induction false} Narrow(conds: seq<Cond>, args: seq<Value>, c: Cond, more: seq<Value>, part: Filter,
                                  next: Filter, within: (Point, real, real, real) -> bool)
    requires Keeps(conds, args, part, within)
    requires forall n :: Uses(c, n) ==> 1 <= n <= |args| + |more|
    requires forall n :: |args| < n <= |args| + |more| ==> Uses(c, n)
    requires forall row :: Eval(c, args + more, row, within).Some? &&
               (Matches(Some(next), row, within) <==>
                Matches(Some(part), row, within) && Eval(c, args + more, row, within) == Some(True))
    ensures Keeps(conds + [c], args + more, next, within)
  {
    var conds', args' := conds + [c], args + more;
    forall row
      ensures Where(conds', args', row, within).Some?
      ensures Where(conds', args', row, within) == Some(True) <==> Matches(Some(next), row, within)
    {
      WhereIgnoresLaterArgs(conds, args, more, row, within);
      assert conds'[..|conds|] == conds;
    }
    forall n | 1 <= n <= |args'| ensures Used(conds', n) {
      if n <= |args| {
        assert Used(conds, n);
        var i :| 0 <= i < |conds| && Uses(conds[i], n);
        assert conds'[i] == conds[i];
      } else {
        assert Uses(conds'[|conds|], n);
      }
    }
    assert Linked(conds', args');
  }

  // ---------------------------------------------------------------- the compiler

  const NO_FILTER := Filter(None, None, None, None, None, None)

  /** The geo condition: a NOT NULL test, then the radius test with three new placeholders. */
  lemma {:induction false} NarrowNear(conds: seq<Cond>, args: seq<Value>, near: Circle,
                                      within: (Point, real, real, real) -> bool)
    requires Keeps(conds, args, NO_FILTER, within)
    ensures var more := [Number(near.lng), Number(near.lat), Number(near.radius)];
            Keeps(conds + [HasGeom] + [InRadius(|args| + 1, |args| + 2, |args| + 3)], args + more,
                  NO_FILTER.(near := Some(near)), within)
  {
    var more := [Number(near.lng), Number(near.lat), Number(near.radius)];
    var conds', args' := conds + [HasGeom] + [InRadius(|args| + 1, |args| + 2, |args| + 3)], args + more;
    assert args'[|args|] == more[0] && args'[|args| + 1] == more[1] && args'[|args| + 2] == more[2];
    forall row
      ensures Where(conds', args', row, within).Some?
      ensures Where(conds', args', row, within) == Some(True) <==>
                Matches(Some(NO_FILTER.(near := Some(near))), row, within)
    {
      WhereIgnoresLaterArgs(conds, args, more, row, within);
      assert conds'[..|conds| + 1] == conds + [HasGeom] && (conds + [HasGeom])[..|conds|] == conds;
    }
    forall n | 1 <= n <= |args'| ensures Used(conds', n) {
      if n <= |args| {
        assert Used(conds, n);
        var i :| 0 <= i < |conds| && Uses(conds[i], n);
        assert conds'[i] == conds[i];
      } else {
        assert Uses(conds'[|conds| + 1], n);
      }
    }
    forall i, n | 0 <= i < |conds'| && Uses(conds'[i], n) ensures 1 <= n <= |args'| {
      if i < |conds| {
        assert Uses(conds[i], n);
      }
    }
  }

  /** Builds the clause piece by piece; `point` is the pair of placeholders the distance column reuses.
      The clause never fails and keeps exactly the rows the filter asks for; every placeholder has
      its argument and every argument is used. */
  method QueryEvents(f: Option<Filter>, ghost within: (Point, real, real, real) -> bool)
    returns (conds: seq<Cond>, args: seq<Value>, point: Option<(nat, nat)>)
    ensures Linked(conds, args)
    ensures forall row :: Where(conds, args, row, within).Some?
    ensures forall row :: Where(conds, args, row, within) == Some(True) <==> Matches(f, row, within)
    ensures point.Some? <==> f.Some? && f.value.near.Some?
    ensures point.Some? ==> Arg(args, point.value.0) == Some(Number(f.value.near.value.lng)) &&
                            Arg(args, point.value.1) == Some(Number(f.value.near.value.lat))
  {
    conds, args, point := [IsPublished], [], None;
    ghost var part := NO_FILTER;
    assert conds[..0] == [];
    assert Keeps(conds, args, part, within);
    if f.None? {
      return;
    }
    var g := f.value;
    if g.near.Some? {
      NarrowNear(conds, args, g.near.value, within);
      conds := conds + [HasGeom] + [InRadius(|args| + 1, |args| + 2, |args| + 3)];
      point := Some((|args| + 1, |args| + 2));
      args := args + [Number(g.near.value.lng), Number(g.near.value.lat), Number(g.near.value.radius)];
    }
    part := part.(near := g.near);
    assert Keeps(conds, args, part, within);
    conds, args := AppendDates(g, conds, args, within);
    conds, args := AppendPrices(g, conds, args, within);
  }

  lemma {:induction false} NarrowCategory(conds: seq<Cond>, args: seq<Value>, bound: string, part: Filter,
                                   within: (Point, real, real, real) -> bool)
    requires Keeps(conds, args, part, within) && part.category.None?
    ensures Keeps(conds + [CategoryIs(|args| + 1)], args + [Text(bound)], part.(category := Some(bound)), within)
  {
    Narrow(conds, args, CategoryIs(|args| + 1), [Text(bound)], part, part.(category := Some(bound)), within);
  }

  lemma {:induction false} NarrowAfter(conds: seq<Cond>, args: seq<Value>, bound: int, part: Filter,
                                   within: (Point, real, real, real) -> bool)
    requires Keeps(conds, args, part, within) && part.startsAfter.None?
    ensures Keeps(conds + [StartsFrom(|args| + 1)], args + [Time(bound)], part.(startsAfter := Some(bound)), within)
  {
    Narrow(conds, args, StartsFrom(|args| + 1), [Time(bound)], part, part.(startsAfter := Some(bound)), within);
  }

  lemma {:induction false} NarrowBefore(conds: seq<Cond>, args: seq<Value>, bound: int, part: Filter,
                                   within: (Point, real, real, real) -> bool)
    requires Keeps(conds, args, part, within) && part.startsBefore.None?
    ensures Keeps(conds + [StartsUntil(|args| + 1)], args + [Time(bound)], part.(startsBefore := Some(bound)), within)
  {
    Narrow(conds, args, StartsUntil(|args| + 1), [Time(bound)], part, part.(startsBefore := Some(bound)), within);
  }

  lemma {:induction false} NarrowMinPrice(conds: seq<Cond>, args: seq<Value>, bound: int, part: Filter,
                                   within: (Point, real, real, real) -> bool)
    requires Keeps(conds, args, part, within) && part.minPrice.None?
    ensures Keeps(conds + [PriceFrom(|args| + 1)], args + [Whole(bound)], part.(minPrice := Some(bound)), within)
  {
    Narrow(conds, args, PriceFrom(|args| + 1), [Whole(bound)], part, part.(minPrice := Some(bound)), within);
  }

  lemma {:induction false} NarrowMaxPrice(conds: seq<Cond>, args: seq<Value>, bound: int, part: Filter,
                                   within: (Point, real, real, real) -> bool)
    requires Keeps(conds, args, part, within) && part.maxPrice.None?
    ensures Keeps(conds + [PriceUpTo(|args| + 1)], args + [Whole(bound)], part.(maxPrice := Some(bound)), within)
  {
    Narrow(conds, args, PriceUpTo(|args| + 1), [Whole(bound)], part, part.(maxPrice := Some(bound)), within);
  }

  /** The category and date conditions, in the order they are written. */
  method AppendDates(g: Filter, conds0: seq<Cond>, args0: seq<Value>, ghost within: (Point, real, real, real) -> bool)
    returns (conds: seq<Cond>, args: seq<Value>)
    requires Keeps(conds0, args0, NO_FILTER.(near := g.near), within)
    ensures Keeps(conds, args, g.(minPrice := None, maxPrice := None), within)
    ensures args0 <= args
  {
    conds, args := conds0, args0;
    ghost var part := NO_FILTER.(near := g.near);
    if g.category.Some? {
      NarrowCategory(conds, args, g.category.value, part, within);
      args := args + [Text(g.category.value)];
      conds := conds + [CategoryIs(|args|)];
    }
    part := part.(category := g.category);
    assert Keeps(conds, args, part, within);
    if g.startsAfter.Some? {
      NarrowAfter(conds, args, g.startsAfter.value, part, within);
      args := args + [Time(g.startsAfter.value)];
      conds := conds + [StartsFrom(|args|)];
    }
    part := part.(startsAfter := g.startsAfter);
    assert Keeps(conds, args, part, within);
    if g.startsBefore.Some? {
      NarrowBefore(conds, args, g.startsBefore.value, part, within);
      args := args + [Time(g.startsBefore.value)];
      conds := conds + [StartsUntil(|args|)];
    }
  }

  /** The price conditions, written last. */
  method AppendPrices(g: Filter, conds0: seq<Cond>, args0: seq<Value>, ghost within: (Point, real, real, real) -> bool)
    returns (conds: seq<Cond>, args: seq<Value>)
    requires Keeps(conds0, args0, g.(minPrice := None, maxPrice := None), within)
    ensures Keeps(conds, args, g, within)
    ensures args0 <= args
  {
    conds, args := conds0, args0;
    ghost var part := g.(minPrice := None, maxPrice := None);
    if g.minPrice.Some? {
      NarrowMinPrice(conds, args, g.minPrice.value, part, within);
      args := args + [Whole(g.minPrice.value)];
      conds := conds + [PriceFrom(|args|)];
    }
    part := part.(minPrice := g.minPrice);
    assert Keeps(conds, args, part, within);
    if g.maxPrice.Some? {
      NarrowMaxPrice(conds, args, g.maxPrice.value, part, within);
      args := args + [Whole(g.maxPrice.value)];
      conds := conds + [PriceUpTo(|args|)];
    }
  }
}
