/** The result sorting of the background query task
    (webapp/backend/routes/query.py): each sort spec, taken last to first,
    re-sorts the rows with Python's stable `list.sort`, so the first spec ends
    up as the primary key and later specs break its ties. */
module ResultSort {
  import opened Base
  import opened Strings
  import Ordering

  // ---------------------------------------------------------------------------
  // Keys and their order

  /** A sort key as Python compares it: numbers with numbers, strings with
      strings. */
  datatype SortKey = Num(n: real) | Text(t: string)

  /** `a < b`; the two kinds never meet in one sort, the order between them is
      only there to make the relation total. */
  predicate KeyLess(a: SortKey, b: SortKey)
  {
    match (a, b)
    case (Num(x), Num(y)) => x < y
    case (Text(x), Text(y)) => Ordering.Less(x, y)
    case (Num(_), Text(_)) => true
    case (Text(_), Num(_)) => false
  }

  lemma KeyLessTransitive(a: SortKey, b: SortKey, c: SortKey)
    requires KeyLess(a, b) && KeyLess(b, c)
    ensures KeyLess(a, c)
  {
    if a.Text? && b.Text? && c.Text? {
      Ordering.LessTransitive(a.t, b.t, c.t);
    }
  }

  lemma KeyLessTotal(a: SortKey, b: SortKey)
    ensures a == b || KeyLess(a, b) || KeyLess(b, a)
  {
    if a.Text? && b.Text? {
      Ordering.LessTotal(a.t, b.t);
    }
  }

  lemma KeyLessIrreflexive(a: SortKey)
    ensures !KeyLess(a, a)
  {
    if a.Text? {
      Ordering.LessIrreflexive(a.t);
    }
  }

  /** A row with key `a` may stay before a row with key `b`: ascending, `b` is
      not smaller; descending (`reverse=True`), `b` is not larger. */
  predicate InOrder(a: SortKey, b: SortKey, descending: bool)
  {
    if descending then !KeyLess(a, b) else !KeyLess(b, a)
  }

  lemma InOrderTotal(a: SortKey, b: SortKey, descending: bool)
    ensures InOrder(a, b, descending) || InOrder(b, a, descending)
  {
    KeyLessTotal(a, b);
    if a == b {
      KeyLessIrreflexive(a);
    } else if KeyLess(a, b) && KeyLess(b, a) {
      KeyLessTransitive(a, b, a);
      KeyLessIrreflexive(a);
    }
  }

  lemma InOrderTransitive(a: SortKey, b: SortKey, c: SortKey, descending: bool)
    requires InOrder(a, b, descending) && InOrder(b, c, descending)
    ensures InOrder(a, c, descending)
  {
    if descending {
      if KeyLess(a, c) {
        KeyLessTotal(a, b);
        if KeyLess(b, a) {
          KeyLessTransitive(b, a, c);
        } else if a == b {
        }
      }
    } else {
      if KeyLess(c, a) {
        KeyLessTotal(b, a);
        if KeyLess(a, b) {
          KeyLessTransitive(c, a, b);
        }
      }
    }
  }

  // ---------------------------------------------------------------------------
  // Stable sort

  /** Insert `x` before the first row it may precede; rows of an equal key stay
      after it, so rows of equal keys keep their order. */
  function Insert<T>(x: T, ys: seq<T>, key: T -> SortKey, descending: bool): (r: seq<T>)
    ensures multiset(r) == multiset(ys) + multiset{x}
    ensures |r| == |ys| + 1
  {
    if ys == [] || InOrder(key(x), key(ys[0]), descending) then [x] + ys
    else
      assert ys == [ys[0]] + ys[1..];
      [ys[0]] + Insert(x, ys[1..], key, descending)
  }

  /** Python's stable `list.sort(key=..., reverse=...)`. */
  function StableSort<T>(xs: seq<T>, key: T -> SortKey, descending: bool): (r: seq<T>)
    ensures multiset(r) == multiset(xs)
    ensures |r| == |xs|
  {
    if xs == [] then []
    else
      assert xs == [xs[0]] + xs[1..];
      Insert(xs[0], StableSort(xs[1..], key, descending), key, descending)
  }

  predicate Sorted<T>(s: seq<T>, key: T -> SortKey, descending: bool)
  {
    forall i, j :: 0 <= i < j < |s| ==> InOrder(key(s[i]), key(s[j]), descending)
  }

  /** Every earlier row stands in `rel` to every later row. */
  predicate Pairwise<T>(s: seq<T>, rel: (T, T) -> bool)
  {
    forall i, j :: 0 <= i < j < |s| ==> rel(s[i], s[j])
  }

  /** Among rows of equal key, every earlier row stands in `rel` to every later
      one. */
  predicate TiesOrdered<T>(s: seq<T>, key: T -> SortKey, rel: (T, T) -> bool)
  {
    forall i, j :: 0 <= i < j < |s| && key(s[i]) == key(s[j]) ==> rel(s[i], s[j])
  }

  /** Where `Insert` puts `x`: after every row it may not precede, and
      before the first one it may. */
  function InsertPos<T>(x: T, ys: seq<T>, key: T -> SortKey, descending: bool): (p: nat)
    ensures p <= |ys|
    ensures forall i :: 0 <= i < p ==> !InOrder(key(x), key(ys[i]), descending)
    ensures p < |ys| ==> InOrder(key(x), key(ys[p]), descending)
  {
    if ys == [] || InOrder(key(x), key(ys[0]), descending) then 0
    else
      var p := InsertPos(x, ys[1..], key, descending);
      assert forall i :: 1 <= i < p + 1 ==> ys[i] == ys[1..][i - 1];
      p + 1
  }

  /** `Insert` splits the rows at `InsertPos` and puts `x` there. */
  lemma {:induction false} InsertAt<T>(x: T, ys: seq<T>, key: T -> SortKey, descending: bool)
    ensures var p := InsertPos(x, ys, key, descending);
      Insert(x, ys, key, descending) == ys[..p] + [x] + ys[p..]
  {
    if ys == [] || InOrder(key(x), key(ys[0]), descending) {
      assert ys[..0] == [] && ys[0..] == ys;
    } else {
      var p := InsertPos(x, ys[1..], key, descending);
      InsertAt(x, ys[1..], key, descending);
      ConsSplit(ys[0], ys[1..], p, x);
      assert [ys[0]] + ys[1..] == ys;
    }
  }

  /** Putting a row in front commutes with splitting the rest at `p`. */
  lemma ConsSplit<T>(y: T, t: seq<T>, p: nat, x: T)
    requires p <= |t|
    ensures [y] + (t[..p] + [x] + t[p..]) == ([y] + t)[..p + 1] + [x] + ([y] + t)[p + 1..]
  {
    assert ([y] + t)[..p + 1] == [y] + t[..p];
    assert ([y] + t)[p + 1..] == t[p..];
  }

  lemma InsertSorted<T>(x: T, ys: seq<T>, key: T -> SortKey, descending: bool)
    requires Sorted(ys, key, descending)
    ensures Sorted(Insert(x, ys, key, descending), key, descending)
  {
    InsertAt(x, ys, key, descending);
    SortedSplice(x, ys, InsertPos(x, ys, key, descending), key, descending);
  }

  /** The row indices of `ys[..p] + [x] + ys[p..]`. */
  lemma SpliceIndex<T>(x: T, ys: seq<T>, p: nat)
    requires p <= |ys|
    ensures var r := ys[..p] + [x] + ys[p..];
      && |r| == |ys| + 1 && r[p] == x
      && (forall i :: 0 <= i < p ==> r[i] == ys[i])
      && (forall i :: p < i < |r| ==> r[i] == ys[i - 1])
  {
  }

  /** `x` put where it may precede the next row and no earlier one keeps the
      rows sorted. */
  lemma SortedSplice<T>(x: T, ys: seq<T>, p: nat, key: T -> SortKey, descending: bool)
    requires Sorted(ys, key, descending) && p <= |ys|
    requires forall i :: 0 <= i < p ==> !InOrder(key(x), key(ys[i]), descending)
    requires p < |ys| ==> InOrder(key(x), key(ys[p]), descending)
    ensures Sorted(ys[..p] + [x] + ys[p..], key, descending)
  {
    var r := ys[..p] + [x] + ys[p..];
    SpliceIndex(x, ys, p);
    forall i, j | 0 <= i < j < |r| ensures InOrder(key(r[i]), key(r[j]), descending) {
      if i < p && j == p {
        InOrderTotal(key(x), key(ys[i]), descending);
      } else if i == p && j > p + 1 {
        InOrderTransitive(key(x), key(ys[p]), key(ys[j - 1]), descending);
      }
    }
  }

  /** The sort orders by the key, as the direction says. */
  lemma {:induction false} StableSortSorted<T>(xs: seq<T>, key: T -> SortKey, descending: bool)
    ensures Sorted(StableSort(xs, key, descending), key, descending)
  {
    if xs != [] {
      StableSortSorted(xs[1..], key, descending);
      InsertSorted(xs[0], StableSort(xs[1..], key, descending), key, descending);
    }
  }

  lemma InsertKeepsTies<T>(x: T, ys: seq<T>, key: T -> SortKey, descending: bool, rel: (T, T) -> bool)
    requires TiesOrdered(ys, key, rel)
    requires forall k :: 0 <= k < |ys| ==> rel(x, ys[k])
    ensures TiesOrdered(Insert(x, ys, key, descending), key, rel)
  {
    InsertAt(x, ys, key, descending);
    TiesSplice(x, ys, InsertPos(x, ys, key, descending), key, descending, rel);
  }

  /** `x` put before every row of its key, and in `rel` to every row, keeps
      the ties ordered. */
  lemma TiesSplice<T>(x: T, ys: seq<T>, p: nat, key: T -> SortKey, descending: bool, rel: (T, T) -> bool)
    requires TiesOrdered(ys, key, rel) && p <= |ys|
    requires forall k :: 0 <= k < |ys| ==> rel(x, ys[k])
    requires forall i :: 0 <= i < p ==> !InOrder(key(x), key(ys[i]), descending)
    ensures TiesOrdered(ys[..p] + [x] + ys[p..], key, rel)
  {
    var r := ys[..p] + [x] + ys[p..];
    SpliceIndex(x, ys, p);
    forall i, j | 0 <= i < j < |r| && key(r[i]) == key(r[j]) ensures rel(r[i], r[j]) {
      if i < p && j == p {
        KeyLessIrreflexive(key(x));
        assert false;
      }
    }
  }

  /** Stability: rows of equal key leave the sort in the order they came in,
      so an order the input kept among them survives. */
  lemma {:induction false} StableSortKeepsTies<T>(xs: seq<T>, key: T -> SortKey, descending: bool, rel: (T, T) -> bool)
    requires Pairwise(xs, rel)
    ensures TiesOrdered(StableSort(xs, key, descending), key, rel)
  {
    if xs != [] {
      var rest := StableSort(xs[1..], key, descending);
      StableSortKeepsTies(xs[1..], key, descending, rel);
      forall k | 0 <= k < |rest| ensures rel(xs[0], rest[k]) {
        assert rest[k] in multiset(xs[1..]);
        var m :| 0 <= m < |xs[1..]| && xs[1..][m] == rest[k];
        assert xs[m + 1] == rest[k];
      }
      InsertKeepsTies(xs[0], rest, key, descending, rel);
    }
  }

  // ---------------------------------------------------------------------------
  // The sort specs of a query

  /** One entry of `sort`: `field` (None or '' is skipped) and `order`. */
  datatype SortSpec = SortSpec(field: Option<string>, order: Option<string>)

  /** `spec.get("order", "asc").lower() == "desc"`. */
  predicate Descending(s: SortSpec)
  {
    Lower(if s.order.Some? then s.order.value else "asc") == "desc"
  }

  predicate Active(s: SortSpec)
  {
    s.field.Some? && s.field.value != []
  }

  /** How a field's values compare across the whole list: all numbers, all
      strings, or anything else, where the first `sort` raises TypeError and
      the rows are sorted by `str()` instead. */
  datatype Mode = Numeric | Textual | ByText

  /** `x.get(field, 0) or 0`. */
  function Primary(row: Record, field: string): Value
  {
    OrElse(GetOr(row, field, VInt(0)), VInt(0))
  }

  predicate IsNumber(v: Value)
  {
    v.VInt? || v.VBool? || v.VFloat?
  }

  function NumberOf(v: Value): real
  {
    match v
    case VInt(i) => i as real
    case VBool(b) => if b then 1.0 else 0.0
    case VFloat(r) => r
    case _ => 0.0
  }

  function ModeOf(rows: seq<Record>, field: string): Mode
  {
    if forall i :: 0 <= i < |rows| ==> IsNumber(Primary(rows[i], field)) then Numeric
    else if forall i :: 0 <= i < |rows| ==> Primary(rows[i], field).VStr? then Textual
    else ByText
  }

  /** The key a row sorts by under a mode; `str` is Python's `str()` on
      values that are not already strings (on a string it is the identity). */
  function KeyOf(row: Record, field: string, mode: Mode, str: Value -> string): SortKey
  {
    match mode
    case Numeric => Num(NumberOf(Primary(row, field)))
    case Textual => var p := Primary(row, field); Text(if p.VStr? then p.s else [])
    case ByText => var v := GetOr(row, field, VStr([])); Text(if v.VStr? then v.s else str(v))
  }

  /** A field's mode depends only on which rows there are, not on their order. */
  lemma ModeIgnoresOrder(a: seq<Record>, b: seq<Record>, field: string)
    requires multiset(a) == multiset(b)
    ensures ModeOf(a, field) == ModeOf(b, field)
  {
    forall i | 0 <= i < |a| ensures exists k :: 0 <= k < |b| && b[k] == a[i] {
      assert a[i] in multiset(b);
    }
    forall i | 0 <= i < |b| ensures exists k :: 0 <= k < |a| && a[k] == b[i] {
      assert b[i] in multiset(a);
    }
  }

  /** One `results.sort(...)` for a spec with a field, in the mode of the rows
      it is given. */
  function SortBy(rows: seq<Record>, s: SortSpec, str: Value -> string): (r: seq<Record>)
    requires Active(s)
    ensures multiset(r) == multiset(rows)
  {
    var mode := ModeOf(rows, s.field.value);
    StableSort(rows, (row: Record) => KeyOf(row, s.field.value, mode, str), Descending(s))
  }

  /** The specs applied last to first, skipping those without a field. */
  function SortAll(rows: seq<Record>, specs: seq<SortSpec>, str: Value -> string): (r: seq<Record>)
    ensures multiset(r) == multiset(rows)
    decreases |specs|
  {
    if specs == [] then rows
    else
      var inner := SortAll(rows, specs[1..], str);
      if Active(specs[0]) then SortBy(inner, specs[0], str) else inner
  }

  /** `a` may stay before `b` under the specs read as a lexicographic order:
      the first spec with a field decides unless the keys tie, then the next. */
  predicate LexInOrder(specs: seq<SortSpec>, modes: seq<Mode>, str: Value -> string, a: Record, b: Record)
    requires |modes| == |specs|
    decreases |specs|
  {
    if specs == [] then true
    else if !Active(specs[0]) then LexInOrder(specs[1..], modes[1..], str, a, b)
    else
      var ka := KeyOf(a, specs[0].field.value, modes[0], str);
      var kb := KeyOf(b, specs[0].field.value, modes[0], str);
      if ka == kb then LexInOrder(specs[1..], modes[1..], str, a, b)
      else InOrder(ka, kb, Descending(specs[0]))
  }

  /** Each spec's mode over the given rows (the same for every reordering). */
  function Modes(rows: seq<Record>, specs: seq<SortSpec>): (modes: seq<Mode>)
    ensures |modes| == |specs|
  {
    if specs == [] then []
    else [if Active(specs[0]) then ModeOf(rows, specs[0].field.value) else Numeric] + Modes(rows, specs[1..])
  }

  /** The first spec is the primary key: the sorted rows are in lexicographic
      order of the specs' keys, the later specs breaking ties of the earlier. */
  lemma {:induction false} SortAllLexicographic(rows: seq<Record>, specs: seq<SortSpec>, str: Value -> string)
    ensures var out := SortAll(rows, specs, str);
      forall i, j :: 0 <= i < j < |out| ==> LexInOrder(specs, Modes(rows, specs), str, out[i], out[j])
    decreases |specs|
  {
    var out := SortAll(rows, specs, str);
    if specs != [] {
      var modes := Modes(rows, specs);
      assert modes[1..] == Modes(rows, specs[1..]);
      var inner := SortAll(rows, specs[1..], str);
      SortAllLexicographic(rows, specs[1..], str);
      assert forall i, j :: 0 <= i < j < |SortAll(rows, specs[1..], str)| ==> LexInOrder(specs[1..], Modes(rows, specs[1..]), str, SortAll(rows, specs[1..], str)[i], SortAll(rows, specs[1..], str)[j]);
      assert forall i, j :: 0 <= i < j < |inner| ==> LexInOrder(specs[1..], modes[1..], str, inner[i], inner[j]);
      if Active(specs[0]) {
        var field := specs[0].field.value;
        var desc := Descending(specs[0]);
        ModeIgnoresOrder(inner, rows, field);
        var key := (row: Record) => KeyOf(row, field, modes[0], str);
        var rel := (a: Record, b: Record) => LexInOrder(specs[1..], modes[1..], str, a, b);
        forall i, j | 0 <= i < j < |inner| ensures rel(inner[i], inner[j]) {
        }
        StableSortSorted(inner, key, desc);
        StableSortKeepsTies(inner, key, desc, rel);
        assert out == StableSort(inner, key, desc);
        forall i, j | 0 <= i < j < |out| ensures LexInOrder(specs, modes, str, out[i], out[j]) {
          assert InOrder(key(out[i]), key(out[j]), desc);
          if key(out[i]) == key(out[j]) {
            assert rel(out[i], out[j]);
          }
        }
      } else {
        assert out == inner;
        forall i, j | 0 <= i < j < |out| ensures LexInOrder(specs, modes, str, out[i], out[j]) {
          assert LexInOrder(specs[1..], modes[1..], str, inner[i], inner[j]);
        }
      }
    }
  }

  /** The loop over `reversed(sort)`: each spec with a field re-sorts the list. */
  method ApplySorting(results: seq<Record>, specs: seq<SortSpec>, str: Value -> string) returns (sorted: seq<Record>)
    ensures sorted == SortAll(results, specs, str)
  {
    sorted := results;
    var k := |specs|;
    while k > 0
      invariant 0 <= k <= |specs|
      invariant sorted == SortAll(results, specs[k..], str)
    {
      k := k - 1;
      assert specs[k..][1..] == specs[k + 1..];
      if Active(specs[k]) {
        sorted := SortBy(sorted, specs[k], str);
      }
    }
    assert specs[0..] == specs;
  }

  /** `results[:limit]` when `limit` is set and positive. */
  function Limit(rows: seq<Record>, limit: Option<int>): (r: seq<Record>)
    ensures limit.Some? && limit.value > 0 ==> |r| == if limit.value < |rows| then limit.value else |rows|
    ensures limit.None? || limit.value <= 0 ==> r == rows
    ensures r <= rows
  {
    if limit.Some? && limit.value > 0 then
      if limit.value < |rows| then rows[..limit.value] else rows
    else rows
  }
}
