/**
 Unit equivalences of products: two migrations that turn rows around in place, and the two triggers that
 keep every row written in between pointing at its product's base unit.
 */
module Equivalences {
  import opened Sums

  type Id = nat

  datatype Equivalence = Equivalence(product: Id, fromUnit: Id, toUnit: Id, factor: int)

  type Rows = map<Id, Equivalence>
  type Products = map<Id, Option<Id>>

  /** Which way a migration turns rows: base unit to the destination, or back to the origin. */
  datatype Direction = ToBase | FromBase

  datatype State = State(rows: Rows, products: Products, guarded: bool)

  // ---------- Tables ----------

  predicate SamePair(a: Equivalence, b: Equivalence) {
    a.product == b.product && a.fromUnit == b.fromUnit && a.toUnit == b.toUnit
  }

  /** The unique constraint on product, origin and destination. */
  predicate Unique(rows: Rows) {
    forall i, j | i in rows && j in rows && SamePair(rows[i], rows[j]) :: i == j
  }

  predicate Checked(e: Equivalence) { e.factor > 0 && e.fromUnit != e.toUnit }

  /** All constraints of the two tables. */
  ghost predicate Valid(s: State) {
    && Unique(s.rows)
    && forall i | i in s.rows :: Checked(s.rows[i]) && s.rows[i].product in s.products
  }

  predicate HasBase(products: Products, product: Id, unit: Id) {
    product in products && products[product] == Some(unit)
  }

  predicate OnBase(products: Products, e: Equivalence) { HasBase(products, e.product, e.toUnit) }

  predicate TouchesBase(products: Products, e: Equivalence) {
    OnBase(products, e) || HasBase(products, e.product, e.fromUnit)
  }

  // ---------- Turning rows around ----------

  function Turned(e: Equivalence): Equivalence { e.(fromUnit := e.toUnit, toUnit := e.fromUnit) }

  predicate Turns(products: Products, e: Equivalence, d: Direction) {
    && e.fromUnit != e.toUnit
    && HasBase(products, e.product, if d.ToBase? then e.fromUnit else e.toUnit)
  }

  function TurnRow(products: Products, e: Equivalence, d: Direction): Equivalence {
    if Turns(products, e, d) then Turned(e) else e
  }

  ghost function Turn(rows: Rows, products: Products, d: Direction): Rows {
    map i | i in rows :: TurnRow(products, rows[i], d)
  }

  /** The guard's self join: some row to turn whose opposite is already there. */
  predicate BothSenses(rows: Rows, products: Products, d: Direction) {
    exists i, j | i in rows && j in rows :: Turns(products, rows[i], d) && SamePair(rows[j], Turned(rows[i]))
  }

  /** The guard rejects exactly the tables that turning would make non-unique. */
  lemma {:induction false} GuardIsExact(rows: Rows, products: Products, d: Direction)
    requires Unique(rows)
    ensures BothSenses(rows, products, d) <==> !Unique(Turn(rows, products, d))
  {
    var turned := Turn(rows, products, d);
    if BothSenses(rows, products, d) {
      var i, j :| i in rows && j in rows && Turns(products, rows[i], d) && SamePair(rows[j], Turned(rows[i]));
      assert turned[i] == Turned(rows[i]) && turned[j] == rows[j];
      assert SamePair(turned[i], turned[j]) && i != j;
    }
    if !Unique(turned) {
      var i, j :| i in turned && j in turned && SamePair(turned[i], turned[j]) && i != j;
      TurnCollision(products, rows[i], rows[j], d);
      assert !SamePair(rows[i], rows[j]);
    }
  }

  /** Two rows that collide once turned were equal, or one was the opposite of a row that turns. */
  lemma TurnCollision(products: Products, a: Equivalence, b: Equivalence, d: Direction)
    requires SamePair(TurnRow(products, a, d), TurnRow(products, b, d))
    ensures || SamePair(a, b)
            || (Turns(products, a, d) && SamePair(b, Turned(a)))
            || (Turns(products, b, d) && SamePair(a, Turned(b)))
  {}

  /** Turning to the base leaves every row that touches the base on it, and nothing else changes. */
  lemma {:induction false} TurnedRowsAreOnBase(rows: Rows, products: Products)
    ensures Turn(rows, products, ToBase).Keys == rows.Keys
    ensures forall i | i in rows ::
              var e := Turn(rows, products, ToBase)[i];
              && (OnBase(products, e) <==> TouchesBase(products, rows[i]))
              && (e == rows[i] || e == Turned(rows[i]))
  {}

  /** Turning away from the base leaves no row on it, and every row that touched it starts out from it. */
  lemma {:induction false} TurnedRowsLeaveBase(rows: Rows, products: Products)
    requires forall i | i in rows :: rows[i].fromUnit != rows[i].toUnit
    ensures Turn(rows, products, FromBase).Keys == rows.Keys
    ensures forall i | i in rows ::
              var e := Turn(rows, products, FromBase)[i];
              && !OnBase(products, e) && (HasBase(products, e.product, e.fromUnit) <==> TouchesBase(products, rows[i]))
              && (e == rows[i] || e == Turned(rows[i]))
  {}

  /** Exactly the rows with the base at one end are reversed, with product and factor as they were. */
  lemma {:induction false} TurnReverses(rows: Rows, products: Products, d: Direction, i: Id)
    requires i in rows
    ensures var e := rows[i];
            var end := if d == ToBase then e.fromUnit else e.toUnit;
            Turn(rows, products, d)[i]
            == if e.product in products && products[e.product] == Some(end) && e.fromUnit != e.toUnit
               then Equivalence(e.product, e.toUnit, e.fromUnit, e.factor) else e
  {}

  /** Back and forth is the identity exactly when no row started out from the base. */
  lemma {:induction false} DownUndoesUp(rows: Rows, products: Products)
    ensures Turn(Turn(rows, products, FromBase), products, ToBase) == rows
       <==> forall i | i in rows :: !Turns(products, rows[i], ToBase)
  {
  }

  /** After turning rows away from the base, turning them back can never collide. */
  lemma {:induction false} DownNeverCollidesAfterUp(rows: Rows, products: Products)
    requires Unique(Turn(rows, products, FromBase))
    ensures Unique(Turn(Turn(rows, products, FromBase), products, ToBase))
  {
  }

  // ---------- Writes under the triggers ----------

  datatype Write =
    | InsertRow(id: Id, row: Equivalence)
    | UpdateUnits(id: Id, row: Equivalence)
    | UpdateFactor(id: Id, factor: int)
    | DeleteRow(id: Id)
    | InsertProduct(product: Id, base: Option<Id>)
    | UpdateBase(product: Id, base: Option<Id>)
    | DeleteProduct(product: Id)

  /** validate_product_equivalence_base_unit: NULL base or another destination is an error. */
  predicate EquivalenceTrigger(s: State, row: Equivalence) { s.guarded ==> OnBase(s.products, row) }

  /** prevent_product_base_unit_change_with_equivalences. */
  predicate BaseUnitTrigger(s: State, product: Id, base: Option<Id>)
    requires product in s.products
  {
    s.guarded && base != s.products[product] ==> forall i | i in s.rows :: s.rows[i].product != product
  }

  function Put(s: State, id: Id, row: Equivalence): Option<State> {
    if EquivalenceTrigger(s, row) && Checked(row) && row.product in s.products && Unique(s.rows[id := row])
    then Some(s.(rows := s.rows[id := row])) else None
  }

  /** One statement: the new tables, or None when a trigger or a constraint rejects it. */
  function Apply(s: State, w: Write): Option<State> {
    match w
    case InsertRow(id, row) => if id in s.rows then None else Put(s, id, row)
    case UpdateUnits(id, row) => if id in s.rows then Put(s, id, row) else Some(s)
    case UpdateFactor(id, factor) =>
      if id !in s.rows then Some(s)
      else if factor <= 0 then None
      else Some(s.(rows := s.rows[id := s.rows[id].(factor := factor)]))
    case DeleteRow(id) => Some(s.(rows := s.rows - {id}))
    case InsertProduct(p, base) => if p in s.products then None else Some(s.(products := s.products[p := base]))
    case UpdateBase(p, base) =>
      if p !in s.products then Some(s)
      else if BaseUnitTrigger(s, p, base) then Some(s.(products := s.products[p := base]))
      else None
    case DeleteProduct(p) =>
      Some(s.(products := s.products - {p}, rows := map i | i in s.rows && s.rows[i].product != p :: s.rows[i]))
  }

  /** A row the tables take at this number: units differ, no other row has them, and under guard it ends on the base. */
  ghost predicate TakesRow(s: State, id: Id, row: Equivalence) {
    && row.factor > 0 && row.fromUnit != row.toUnit && row.product in s.products
    && (s.guarded ==> s.products[row.product] == Some(row.toUnit))
    && forall j | j in s.rows && j != id ::
         !(s.rows[j].product == row.product && s.rows[j].fromUnit == row.fromUnit && s.rows[j].toUnit == row.toUnit)
  }

  /** Which writes go through; a write that finds no row does nothing. */
  ghost predicate Acceptable(s: State, w: Write) {
    match w
    case InsertRow(id, row) => id !in s.rows && TakesRow(s, id, row)
    case UpdateUnits(id, row) => id in s.rows ==> TakesRow(s, id, row)
    case UpdateFactor(id, factor) => id in s.rows ==> factor > 0
    case InsertProduct(p, _) => p !in s.products
    case UpdateBase(p, base) =>
      p in s.products && s.guarded && s.products[p] != base ==> forall i | i in s.rows :: s.rows[i].product != p
    case DeleteRow(_) => true
    case DeleteProduct(_) => true
  }

  ghost predicate OtherRowsAlone(rows: Rows, later: Rows, id: Id) {
    forall i | i != id :: (i in later <==> i in rows) && (i in rows ==> later[i] == rows[i])
  }

  ghost predicate OtherProductsAlone(products: Products, later: Products, p: Id) {
    forall q | q != p :: (q in later <==> q in products) && (q in products ==> later[q] == products[q])
  }

  /** What an accepted write leaves. */
  ghost predicate Written(s: State, s': State, w: Write) {
    s'.guarded == s.guarded &&
    match w
    case InsertRow(id, row) =>
      s'.products == s.products && OtherRowsAlone(s.rows, s'.rows, id) && id in s'.rows && s'.rows[id] == row
    case UpdateUnits(id, row) =>
      if id in s.rows
      then s'.products == s.products && OtherRowsAlone(s.rows, s'.rows, id) && id in s'.rows && s'.rows[id] == row
      else s' == s
    case UpdateFactor(id, factor) =>
      if id in s.rows
      then s'.products == s.products && OtherRowsAlone(s.rows, s'.rows, id) && id in s'.rows
           && s'.rows[id] == Equivalence(s.rows[id].product, s.rows[id].fromUnit, s.rows[id].toUnit, factor)
      else s' == s
    case DeleteRow(id) => s'.products == s.products && OtherRowsAlone(s.rows, s'.rows, id) && id !in s'.rows
    case InsertProduct(p, base) =>
      s'.rows == s.rows && OtherProductsAlone(s.products, s'.products, p) && p in s'.products && s'.products[p] == base
    case UpdateBase(p, base) =>
      if p in s.products
      then s'.rows == s.rows && OtherProductsAlone(s.products, s'.products, p) && p in s'.products && s'.products[p] == base
      else s' == s
    case DeleteProduct(p) =>
      && OtherProductsAlone(s.products, s'.products, p) && p !in s'.products
      && (forall i :: i in s'.rows <==> i in s.rows && s.rows[i].product != p)
      && (forall i | i in s'.rows :: i in s.rows && s'.rows[i] == s.rows[i])
  }

  lemma UniqueWith(rows: Rows, id: Id, row: Equivalence)
    requires Unique(rows)
    ensures Unique(rows[id := row]) <==>
              forall j | j in rows && j != id ::
                !(rows[j].product == row.product && rows[j].fromUnit == row.fromUnit && rows[j].toUnit == row.toUnit)
  {
    var later := rows[id := row];
    assert later[id] == row && forall j | j in rows && j != id :: j in later && later[j] == rows[j];
    if Unique(later) {
      forall j | j in rows && j != id
        ensures !(rows[j].product == row.product && rows[j].fromUnit == row.fromUnit && rows[j].toUnit == row.toUnit)
      {
        assert !SamePair(later[j], later[id]);
      }
    }
  }

  /** Under the constraints, and under the triggers while they are there, exactly these writes go through, with this effect. */
  lemma {:induction false} WritesAccepted(s: State, w: Write)
    requires Valid(s)
    ensures Apply(s, w).Some? <==> Acceptable(s, w)
    ensures Apply(s, w).Some? ==> Written(s, Apply(s, w).value, w)
  {
    if w.InsertRow? || w.UpdateUnits? { UniqueWith(s.rows, w.id, w.row); }
  }

  function Run(s: State, ws: seq<Write>): State
    decreases |ws|
  {
    if ws == [] then s
    else match Apply(s, ws[0])
      case Some(next) => Run(next, ws[1..])
      case None => Run(s, ws[1..])
  }

  /** A row of the later table is on its base, or is an old row that has been off the same base all along. */
  ghost predicate Kept(before: State, after: State, i: Id)
    requires i in after.rows
  {
    OnBase(after.products, after.rows[i])
    || (i in before.rows && SamePair(before.rows[i], after.rows[i]) && !OnBase(before.products, before.rows[i])
        && SameBase(before.products, after.products, before.rows[i].product))
  }

  predicate SameBase(before: Products, after: Products, product: Id) {
    product in before && product in after && before[product] == after[product]
  }

  lemma {:induction false} WriteKeeps(s: State, w: Write)
    requires Valid(s) && s.guarded && Apply(s, w).Some?
    ensures Valid(Apply(s, w).value) && Apply(s, w).value.guarded
    ensures forall i | i in Apply(s, w).value.rows :: Kept(s, Apply(s, w).value, i)
  {}

  /**
   While the triggers are installed, whatever is written to either table, every row is on its product's
   current base unit unless it was off the base from the start and its units were never rewritten.
   */
  lemma {:induction false} RunKeeps(s: State, ws: seq<Write>)
    requires Valid(s) && s.guarded
    ensures Valid(Run(s, ws)) && Run(s, ws).guarded
    ensures forall i | i in Run(s, ws).rows :: Kept(s, Run(s, ws), i)
    decreases |ws|
  {
    if ws == [] {
    } else if Apply(s, ws[0]).Some? {
      var next := Apply(s, ws[0]).value;
      WriteKeeps(s, ws[0]);
      RunKeeps(next, ws[1..]);
      forall i | i in Run(s, ws).rows ensures Kept(s, Run(s, ws), i) {
        assert Kept(next, Run(next, ws[1..]), i);
        if i in next.rows { assert Kept(s, next, i); }
      }
    } else {
      RunKeeps(s, ws[1..]);
    }
  }

  ghost predicate AllOnBase(s: State) { forall i | i in s.rows :: OnBase(s.products, s.rows[i]) }

  /** No row starts out from its base unit. */
  ghost predicate NoneFromBase(rows: Rows, products: Products) {
    forall i | i in rows :: !Turns(products, rows[i], ToBase)
  }

  lemma {:induction false} AligningLeavesNoneFromBase(rows: Rows, products: Products)
    ensures NoneFromBase(Turn(rows, products, ToBase), products)
  {
    TurnedRowsAreOnBase(rows, products);
  }

  lemma {:induction false} RunKeepsNoneFromBase(s: State, ws: seq<Write>)
    requires Valid(s) && s.guarded && NoneFromBase(s.rows, s.products)
    ensures NoneFromBase(Run(s, ws).rows, Run(s, ws).products)
  {
    var t := Run(s, ws);
    RunKeeps(s, ws);
    forall i | i in t.rows ensures !Turns(t.products, t.rows[i], ToBase) { assert Kept(s, t, i); }
  }

  /** Where no row starts out from its base, no row has its opposite either. */
  lemma {:induction false} NoneFromBasePassesGuard(rows: Rows, products: Products)
    requires NoneFromBase(rows, products)
    ensures !BothSenses(rows, products, FromBase)
  {
    forall i, j | i in rows && j in rows && Turns(products, rows[i], FromBase)
      ensures !SamePair(rows[j], Turned(rows[i]))
    {
      assert !Turns(products, rows[j], ToBase);
    }
  }

  /**
   Align any valid table, apply any writes, restore, reverse: the restore migration passes its guard and
   keeps every constraint, and its reversal gives the very same rows back.
   */
  lemma {:induction false} GuardedTablesRestore(t: State, ws: seq<Write>)
    requires Valid(t) && Unique(Turn(t.rows, t.products, ToBase))
    ensures var s := Run(State(Turn(t.rows, t.products, ToBase), t.products, true), ws);
            && !BothSenses(s.rows, s.products, FromBase)
            && Unique(Turn(s.rows, s.products, FromBase))
            && Turn(Turn(s.rows, s.products, FromBase), s.products, ToBase) == s.rows
  {
    var aligned := State(Turn(t.rows, t.products, ToBase), t.products, true);
    var s := Run(aligned, ws);
    AligningLeavesNoneFromBase(t.rows, t.products);
    RunKeeps(aligned, ws);
    RunKeepsNoneFromBase(aligned, ws);
    NoneFromBasePassesGuard(s.rows, s.products);
    GuardIsExact(s.rows, s.products, FromBase);
    DownUndoesUp(s.rows, s.products);
  }

  // ---------- The migrations ----------

  class ProductEquivalences {
    var s: State

    constructor (s: State)
      ensures this.s == s
    {
      this.s := s;
    }

    /** The UPDATE: rows are turned one at a time. */
    method TurnRows(d: Direction)
      modifies this
      ensures s == old(s).(rows := Turn(old(s).rows, old(s).products, d))
    {
      var todo := s.rows.Keys;
      while todo != {}
        invariant todo <= old(s).rows.Keys == s.rows.Keys
        invariant s.products == old(s).products && s.guarded == old(s).guarded
        invariant forall i | i in todo :: s.rows[i] == old(s).rows[i]
        invariant forall i | i in s.rows && i !in todo :: s.rows[i] == TurnRow(s.products, old(s).rows[i], d)
        decreases todo
      {
        var i :| i in todo;
        if Turns(s.products, s.rows[i], d) { s := s.(rows := s.rows[i := Turned(s.rows[i])]); }
        todo := todo - {i};
      }
    }

    /** Guard, turn to the base, install the triggers. */
    method AlignUp() returns (ok: bool)
      requires Valid(s)
      modifies this
      ensures ok <==> Unique(Turn(old(s).rows, old(s).products, ToBase))
      ensures ok ==> s == State(Turn(old(s).rows, old(s).products, ToBase), old(s).products, true) && Valid(s)
      ensures !ok ==> s == old(s)
      ensures ok ==> (AllOnBase(s) <==> forall i | i in old(s).rows :: TouchesBase(old(s).products, old(s).rows[i]))
    {
      GuardIsExact(s.rows, s.products, ToBase);
      TurnedRowsAreOnBase(s.rows, s.products);
      if BothSenses(s.rows, s.products, ToBase) { return false; }
      TurnRows(ToBase);
      s := s.(guarded := true);
      ok := true;
    }

    /** Drop the triggers, guard, turn away from the base; a failed guard brings the triggers back. */
    method RestoreUp() returns (ok: bool)
      requires Valid(s)
      modifies this
      ensures ok <==> Unique(Turn(old(s).rows, old(s).products, FromBase))
      ensures ok ==> s == State(Turn(old(s).rows, old(s).products, FromBase), old(s).products, false) && Valid(s)
      ensures !ok ==> s == old(s)
    {
      var before := s;
      GuardIsExact(s.rows, s.products, FromBase);
      s := s.(guarded := false);
      if BothSenses(s.rows, s.products, FromBase) {
        s := before;
        return false;
      }
      TurnRows(FromBase);
      ok := true;
    }

    /** Turn to the base without a guard, then create the triggers, which must not exist yet. */
    method RestoreDown() returns (ok: bool)
      requires Valid(s)
      modifies this
      ensures ok <==> !old(s).guarded && !BothSenses(old(s).rows, old(s).products, ToBase)
      ensures ok ==> s == State(Turn(old(s).rows, old(s).products, ToBase), old(s).products, true) && Valid(s)
      ensures !ok ==> s == old(s)
    {
      var before := s;
      GuardIsExact(s.rows, s.products, ToBase);
      TurnRows(ToBase);
      if s.guarded || !Unique(s.rows) {
        s := before;
        return false;
      }
      s := s.(guarded := true);
      ok := true;
    }
  }
}
