/** JavaScript values as the table and its plugins pass them around, and the
    object spreads by which plugin contributions ("extension bags") are merged. */
module Values {
  import Seqs

  /** A JavaScript value. Finite numbers are integral, besides which there are `NaN` and
      `Infinity`; functions and other host objects are `Opaque`. */
  datatype Value =
    | Undefined
    | Null
    | Bool(b: bool)
    | Num(n: int)
    | NaN
    | Infinity
    | Str(s: string)
    | Arr(elems: seq<Value>)
    | Obj(fields: map<string, Value>)
    | Opaque(tag: nat)

  /** A plain object: what `configure`, `extend` and the creation hooks return. */
  type Bag = map<string, Value>

  /** `obj[k]`: the field, or `undefined` when the object has none. */
  function Prop(b: Bag, k: string): Value {
    if k in b then b[k] else Undefined
  }

  /** JavaScript's ToBoolean, applied by `!!v`, `!v` and `if (v)`. */
  predicate Truthy(v: Value) {
    match v
    case Undefined => false
    case Null => false
    case Bool(b) => b
    case Num(n) => n != 0
    case NaN => false
    case Infinity => true
    case Str(s) => s != ""
    case Arr(_) => true
    case Obj(_) => true
    case Opaque(_) => true
  }

  /** `bags.reduce((acc, b) => ({ ...acc, ...b }), {})`: on a shared key the later bag wins. */
  function Merge(bags: seq<Bag>): Bag {
    if bags == [] then map[] else Merge(bags[..|bags| - 1]) + bags[|bags| - 1]
  }

  /** `bags.reduce((acc, b) => ({ ...b, ...acc }), {})`: on a shared key the earlier bag wins. */
  function MergeFirstWins(bags: seq<Bag>): Bag {
    if bags == [] then map[] else bags[|bags| - 1] + MergeFirstWins(bags[..|bags| - 1])
  }

  /** A key is in the merge exactly when some bag has it, whichever way collisions go. */
  lemma {:induction false} MergeKeys(bags: seq<Bag>)
    ensures Merge(bags).Keys == MergeFirstWins(bags).Keys
    ensures forall k :: k in Merge(bags) <==> exists i :: 0 <= i < |bags| && k in bags[i]
  {
    if bags != [] {
      var init := bags[..|bags| - 1];
      MergeKeys(init);
      forall k | exists i :: 0 <= i < |bags| && k in bags[i]
        ensures k in Merge(bags)
      {
        var i :| 0 <= i < |bags| && k in bags[i];
        if i < |bags| - 1 {
          assert k in init[i];
        }
      }
      forall k | k in Merge(bags)
        ensures exists i :: 0 <= i < |bags| && k in bags[i]
      {
        if k !in bags[|bags| - 1] {
          var i :| 0 <= i < |init| && k in init[i];
          assert k in bags[i];
        }
      }
    }
  }

  /** Later wins: the merged value of `k` is that of the last bag that has `k`. */
  lemma {:induction false} MergeLastWins(bags: seq<Bag>, i: nat, k: string)
    requires i < |bags| && k in bags[i]
    requires forall j :: i < j < |bags| ==> k !in bags[j]
    ensures k in Merge(bags) && Merge(bags)[k] == bags[i][k]
  {
    var init := bags[..|bags| - 1];
    if i < |bags| - 1 {
      assert init[i] == bags[i];
      MergeLastWins(init, i, k);
    }
  }

  /** Earlier wins: the merged value of `k` is that of the first bag that has `k`. */
  lemma {:induction false} MergeFirstWinsFirst(bags: seq<Bag>, i: nat, k: string)
    requires i < |bags| && k in bags[i]
    requires forall j :: 0 <= j < i ==> k !in bags[j]
    ensures k in MergeFirstWins(bags) && MergeFirstWins(bags)[k] == bags[i][k]
  {
    var init := bags[..|bags| - 1];
    if i < |bags| - 1 {
      assert init[i] == bags[i];
      MergeFirstWinsFirst(init, i, k);
    } else {
      forall k' | k' in MergeFirstWins(init)
        ensures k' != k
      {
        MergeKeys(init);
        var j :| 0 <= j < |init| && k' in init[j];
        assert init[j] == bags[j];
      }
    }
  }

  /** Bags that are all empty merge, either way, to the empty bag. */
  lemma {:induction false} MergeOfEmpties(bags: seq<Bag>)
    requires forall i :: 0 <= i < |bags| ==> bags[i] == map[]
    ensures Merge(bags) == map[] && MergeFirstWins(bags) == map[]
  {
    if bags != [] {
      MergeOfEmpties(bags[..|bags| - 1]);
    }
  }

  /** The argument of a setter that accepts either a value or a function of the previous one:
      `typeof data !== 'function' ? data : data(prev)`. */
  datatype Updater = Given(v: Value) | Via(f: Value -> Value)

  function Unwrap(u: Updater, prev: Value): (r: Value)
    ensures u.Given? ==> r == u.v
    ensures u.Via? ==> r == u.f(prev)
  {
    match u
    case Given(v) => v
    case Via(f) => f(prev)
  }

  /** A plain value ignores the previous one, and the identity function keeps it. */
  lemma UnwrapConstantAndIdentity(v: Value, prev: Value, prev': Value)
    ensures Unwrap(Given(v), prev) == Unwrap(Given(v), prev')
    ensures Unwrap(Via(x => x), prev) == prev
  {
  }

  /** `Math.ceil(items / pageSize)`, the page count of both pagination plugins, as a JavaScript
      number: a count of pages, or `Infinity` (items over a page size of 0) or `NaN` (`0 / 0`). */
  datatype PageCount = Pages(n: nat) | Infinite | NotANumber

  function CountPages(items: nat, size: nat): (c: PageCount)
    ensures c.Pages? <==> size > 0
    ensures c.Pages? ==> items <= c.n * size && (c.n == 0 || (c.n - 1) * size < items)
    ensures c.Infinite? <==> size == 0 && items > 0
  {
    if size > 0 then Pages(Seqs.CeilDiv(items, size)) else if items > 0 then Infinite else NotANumber
  }

  /** `page > totalPages`: never true against `Infinity` or `NaN`. */
  predicate PastLast(page: int, c: PageCount) {
    c.Pages? && page > c.n
  }

  function CountValue(c: PageCount): Value {
    match c
    case Pages(n) => Num(n)
    case Infinite => Infinity
    case NotANumber => NaN
  }
}
