// The parity differ (scripts/diagnostics_parity.py): normalise two JSON trees,
// then list their structural differences.
module Parity {
  import opened Lexicographic

  datatype Json =
    | Null
    | Bool(b: bool)
    | Int(i: int)
    | Float(x: real)
    | Str(s: string)
    | List(items: seq<Json>)
    | Obj(fields: map<string, Json>)

  const TS_KEYS: set<string> := {"generated_at_utc", "last_event_ts", "ts", "seconds_since_last_event"}

  // ----- normalize -----

  function Normalize(node: Json): Json {
    match node
    case Obj(fields) => Obj(map k | k in fields && k !in TS_KEYS :: Normalize(fields[k]))
    case List(items) => List(seq(|items|, i requires 0 <= i < |items| => Normalize(items[i])))
    case _ => node
  }

  /** At each level exactly the four timestamp keys go. */
  lemma TimestampKeysGo(fields: map<string, Json>, k: string)
    ensures k in Normalize(Obj(fields)).fields
      <==>
      k in fields && k != "generated_at_utc" && k != "last_event_ts" && k != "ts" && k != "seconds_since_last_event"
  {
  }

  /** No object at any depth carries a timestamp key. */
  ghost predicate TimestampFree(node: Json) {
    match node
    case Obj(fields) => forall k :: k in fields ==> k !in TS_KEYS && TimestampFree(fields[k])
    case List(items) => forall i :: 0 <= i < |items| ==> TimestampFree(items[i])
    case _ => true
  }

  /** Equal once timestamp keys are disregarded at every depth. */
  ghost predicate SameModuloTimestamps(a: Json, b: Json) {
    match (a, b)
    case (Obj(f), Obj(g)) =>
      forall k :: k !in TS_KEYS ==>
        (k in f <==> k in g) && (k in f && k in g ==> SameModuloTimestamps(f[k], g[k]))
    case (List(s), List(t)) => |s| == |t| && forall i :: 0 <= i < |s| ==> SameModuloTimestamps(s[i], t[i])
    case _ => a == b
  }

  lemma {:induction false} NormalizeRemovesTimestamps(node: Json)
    ensures TimestampFree(Normalize(node))
  {
    match node
    case Obj(fields) =>
      forall k | k in fields && k !in TS_KEYS
        ensures TimestampFree(Normalize(fields[k]))
      {
        NormalizeRemovesTimestamps(fields[k]);
      }
    case List(items) =>
      forall i | 0 <= i < |items|
        ensures TimestampFree(Normalize(items[i]))
      {
        NormalizeRemovesTimestamps(items[i]);
      }
    case _ =>
  }

  /** A tree without timestamps is already normal. */
  lemma {:induction false} NormalizeFixes(node: Json)
    requires TimestampFree(node)
    ensures Normalize(node) == node
  {
    match node
    case Obj(fields) =>
      forall k | k in fields
        ensures Normalize(fields[k]) == fields[k]
      {
        NormalizeFixes(fields[k]);
      }
      assert Normalize(node).fields == fields;
    case List(items) =>
      forall i | 0 <= i < |items|
        ensures Normalize(items[i]) == items[i]
      {
        NormalizeFixes(items[i]);
      }
      assert Normalize(node).items == items;
    case _ =>
  }

  lemma NormalizeIdempotent(node: Json)
    ensures Normalize(Normalize(node)) == Normalize(node)
  {
    NormalizeRemovesTimestamps(node);
    NormalizeFixes(Normalize(node));
  }

  /** Normal forms are equal exactly when the trees agree apart from timestamps. */
  lemma {:induction false} NormalFormsDecide(a: Json, b: Json)
    ensures Normalize(a) == Normalize(b) <==> SameModuloTimestamps(a, b)
  {
    match (a, b)
    case (Obj(f), Obj(g)) =>
      var f', g' := Normalize(a).fields, Normalize(b).fields;
      forall k | k in f && k in g
        ensures Normalize(f[k]) == Normalize(g[k]) <==> SameModuloTimestamps(f[k], g[k])
      {
        NormalFormsDecide(f[k], g[k]);
      }
      if f' == g' {
        forall k | k !in TS_KEYS
          ensures k in f <==> k in g
        {
          assert k in f <==> k in f';
          assert k in g <==> k in g';
        }
        forall k | k !in TS_KEYS && k in f && k in g
          ensures SameModuloTimestamps(f[k], g[k])
        {
          assert f'[k] == Normalize(f[k]) && g'[k] == Normalize(g[k]);
        }
      }
      if SameModuloTimestamps(a, b) {
        assert f' == g';
      }
    case (List(s), List(t)) =>
      var s', t' := Normalize(a).items, Normalize(b).items;
      forall i | 0 <= i < |s| && i < |t|
        ensures Normalize(s[i]) == Normalize(t[i]) <==> SameModuloTimestamps(s[i], t[i])
      {
        NormalFormsDecide(s[i], t[i]);
      }
      if s' == t' {
        forall i | 0 <= i < |s|
          ensures SameModuloTimestamps(s[i], t[i])
        {
          assert s'[i] == Normalize(s[i]) && t'[i] == Normalize(t[i]);
        }
      }
      if SameModuloTimestamps(a, b) {
        assert s' == t';
      }
    case _ =>
  }

  /** Lists keep their order: two lists normalise alike exactly when they agree position by position. */
  lemma ListsAgreeIff(s: seq<Json>, t: seq<Json>)
    ensures Normalize(List(s)) == Normalize(List(t))
      <==> |s| == |t| && forall i :: 0 <= i < |s| ==> SameModuloTimestamps(s[i], t[i])
  {
    NormalFormsDecide(List(s), List(t));
  }

  lemma AgreesWithItself(a: Json)
    ensures SameModuloTimestamps(a, a)
  {
    NormalFormsDecide(a, a);
  }

  /** Nothing sorts them: swapping two items goes unnoticed exactly when the items agree. */
  lemma SwapUnnoticedIff(s: seq<Json>, i: nat, j: nat)
    requires i < j < |s|
    ensures Normalize(List(s)) == Normalize(List(s[i := s[j]][j := s[i]])) <==> SameModuloTimestamps(s[i], s[j])
  {
    var t := s[i := s[j]][j := s[i]];
    ListsAgreeIff(s, t);
    NormalFormsDecide(s[i], s[j]);
    NormalFormsDecide(s[j], s[i]);
    forall k | 0 <= k < |s|
      ensures k != i && k != j ==> SameModuloTimestamps(s[k], t[k])
    {
      AgreesWithItself(s[k]);
    }
  }

  /** The failing input for a promised sort: two orders of one pair. */
  lemma OrderIsNoticed()
    ensures Normalize(List([Int(1), Int(2)])) != Normalize(List([Int(2), Int(1)]))
  {
    var s := [Int(1), Int(2)];
    SwapUnnoticedIff(s, 0, 1);
    assert s[0 := s[1]][1 := s[0]] == [Int(2), Int(1)];
  }

  // ----- diff_keys -----

  datatype Step = Key(k: string) | Index(i: nat)

  type Path = seq<Step>

  datatype Kind = TypeDiffers | MissingInNew | MissingInLegacy | LengthDiffers | ValueDiffers

  datatype Difference = Difference(path: Path, kind: Kind)

  predicate SameType(a: Json, b: Json) {
    match (a, b)
    case (Null, Null) | (Bool(_), Bool(_)) | (Int(_), Int(_)) | (Float(_), Float(_)) => true
    case (Str(_), Str(_)) | (List(_), List(_)) | (Obj(_), Obj(_)) => true
    case _ => false
  }

  function Missing(keys: seq<string>, path: Path, kind: Kind): (d: seq<Difference>)
    ensures |d| == |keys|
    ensures forall i :: 0 <= i < |keys| ==> d[i] == Difference(path + [Key(keys[i])], kind)
  {
    seq(|keys|, i requires 0 <= i < |keys| => Difference(path + [Key(keys[i])], kind))
  }

  /** The listing diff_keys returns, in its order. */
  function Diffs(a: Json, b: Json, path: Path): seq<Difference>
    decreases a, 2, 0
  {
    if !SameType(a, b) then [Difference(path, TypeDiffers)]
    else match a
      case Obj(f) => KeyDiffs(f.Keys, b.fields.Keys, path) + FieldDiffs(a, b, Sorted(f.Keys * b.fields.Keys), path)
      case List(s) => LengthDiffs(|s|, |b.items|, path) + ItemDiffs(a, b, Shorter(s, b.items), path)
      case _ => if a != b then [Difference(path, ValueDiffers)] else []
  }

  function KeyDiffs(ka: set<string>, kb: set<string>, path: Path): seq<Difference> {
    Missing(Sorted(ka - kb), path, MissingInNew) + Missing(Sorted(kb - ka), path, MissingInLegacy)
  }

  function LengthDiffs(m: nat, n: nat, path: Path): seq<Difference> {
    if m != n then [Difference(path, LengthDiffers)] else []
  }

  function Shorter<T>(s: seq<T>, t: seq<T>): (n: nat)
    ensures n <= |s| && n <= |t| && (n == |s| || n == |t|)
  {
    if |s| <= |t| then |s| else |t|
  }

  /** Two objects that both have all of these keys. */
  ghost predicate Share(a: Json, b: Json, keys: seq<string>) {
    a.Obj? && b.Obj? && forall k :: k in keys ==> k in a.fields && k in b.fields
  }

  function FieldDiffs(a: Json, b: Json, keys: seq<string>, path: Path): seq<Difference>
    requires Share(a, b, keys)
    decreases a, 1, |keys|
  {
    if keys == [] then []
    else
      var n := |keys| - 1;
      FieldDiffs(a, b, keys[..n], path) + Diffs(a.fields[keys[n]], b.fields[keys[n]], path + [Key(keys[n])])
  }

  function ItemDiffs(a: Json, b: Json, n: nat, path: Path): seq<Difference>
    requires a.List? && b.List? && n <= |a.items| && n <= |b.items|
    decreases a, 1, n
  {
    if n == 0 then []
    else ItemDiffs(a, b, n - 1, path) + Diffs(a.items[n - 1], b.items[n - 1], path + [Index(n - 1)])
  }

  method DiffKeys(a: Json, b: Json, path: Path) returns (out: seq<Difference>)
    ensures out == Diffs(a, b, path)
    decreases a, 1
  {
    if !SameType(a, b) {
      return [Difference(path, TypeDiffers)];
    }
    match a {
      case Obj(_) => out := DiffObjects(a, b, path);
      case List(_) => out := DiffLists(a, b, path);
      case _ => out := if a != b then [Difference(path, ValueDiffers)] else [];
    }
  }

  method ReportMissing(keys: set<string>, path: Path, kind: Kind) returns (out: seq<Difference>)
    ensures out == Missing(Sorted(keys), path, kind)
  {
    var sorted := Sorted(keys);
    out := [];
    for i := 0 to |sorted|
      invariant out == Missing(sorted[..i], path, kind)
    {
      out := out + [Difference(path + [Key(sorted[i])], kind)];
    }
    assert sorted[..|sorted|] == sorted;
  }

  lemma ObjectDiffs(a: Json, b: Json, path: Path)
    requires a.Obj? && b.Obj?
    ensures Share(a, b, Sorted(a.fields.Keys * b.fields.Keys))
    ensures Diffs(a, b, path)
         == KeyDiffs(a.fields.Keys, b.fields.Keys, path) + FieldDiffs(a, b, Sorted(a.fields.Keys * b.fields.Keys), path)
  {
  }

  method DiffObjects(a: Json, b: Json, path: Path) returns (out: seq<Difference>)
    requires a.Obj? && b.Obj?
    ensures out == Diffs(a, b, path)
    decreases a, 0, 1
  {
    ObjectDiffs(a, b, path);
    var ka, kb := a.fields.Keys, b.fields.Keys;
    var gone := ReportMissing(ka - kb, path, MissingInNew);
    var extra := ReportMissing(kb - ka, path, MissingInLegacy);
    var common := DiffFields(a, b, Sorted(ka * kb), path);
    out := gone + extra + common;
  }

  method DiffFields(a: Json, b: Json, keys: seq<string>, path: Path) returns (out: seq<Difference>)
    requires Share(a, b, keys)
    ensures out == FieldDiffs(a, b, keys, path)
    decreases a, 0, 0
  {
    out := [];
    for i := 0 to |keys|
      invariant out == FieldDiffs(a, b, keys[..i], path)
    {
      var k := keys[i];
      assert k in keys && keys[..i + 1][..i] == keys[..i];
      var sub := DiffKeys(a.fields[k], b.fields[k], path + [Key(k)]);
      out := out + sub;
    }
    assert keys[..|keys|] == keys;
  }

  method DiffLists(a: Json, b: Json, path: Path) returns (out: seq<Difference>)
    requires a.List? && b.List?
    ensures out == Diffs(a, b, path)
    decreases a, 0
  {
    var head := if |a.items| != |b.items| then [Difference(path, LengthDiffers)] else [];
    out := [];
    for i := 0 to Shorter(a.items, b.items)
      invariant out == ItemDiffs(a, b, i, path)
    {
      var sub := DiffKeys(a.items[i], b.items[i], path + [Index(i)]);
      out := out + sub;
    }
    out := head + out;
  }

  /** The differ decides equality. */
  lemma {:induction false} NoDiffsIffEqual(a: Json, b: Json, path: Path)
    ensures Diffs(a, b, path) == [] <==> a == b
    decreases a, 2, 0
  {
    if SameType(a, b) {
      match a {
        case Obj(f) =>
          NoFieldDiffs(a, b, Sorted(f.Keys * b.fields.Keys), path);
          NoKeyDiffs(f.Keys, b.fields.Keys, path);
          SameFields(f, b.fields);
        case List(s) =>
          NoItemDiffs(a, b, Shorter(s, b.items), path);
        case _ =>
      }
    }
  }

  lemma NoKeyDiffs(ka: set<string>, kb: set<string>, path: Path)
    ensures KeyDiffs(ka, kb, path) == [] <==> ka == kb
  {
    assert |KeyDiffs(ka, kb, path)| == |ka - kb| + |kb - ka|;
    if KeyDiffs(ka, kb, path) == [] {
      assert ka - kb == {} && kb - ka == {};
      assert ka == (ka - kb) + ka * kb && kb == (kb - ka) + ka * kb;
    }
  }

  lemma SameFields(f: map<string, Json>, g: map<string, Json>)
    ensures f == g <==> f.Keys == g.Keys && forall k :: k in Sorted(f.Keys * g.Keys) ==> f[k] == g[k]
  {
    if f.Keys == g.Keys && forall k :: k in Sorted(f.Keys * g.Keys) ==> f[k] == g[k] {
      forall k | k in f
        ensures f[k] == g[k]
      {
        assert k in Sorted(f.Keys * g.Keys);
      }
    }
  }

  lemma {:induction false} NoFieldDiffs(a: Json, b: Json, keys: seq<string>, path: Path)
    requires Share(a, b, keys)
    ensures FieldDiffs(a, b, keys, path) == [] <==> forall k :: k in keys ==> a.fields[k] == b.fields[k]
    decreases a, 1, |keys|
  {
    if keys != [] {
      var n := |keys| - 1;
      NoFieldDiffs(a, b, keys[..n], path);
      NoDiffsIffEqual(a.fields[keys[n]], b.fields[keys[n]], path + [Key(keys[n])]);
      assert |FieldDiffs(a, b, keys, path)|
          == |FieldDiffs(a, b, keys[..n], path)| + |Diffs(a.fields[keys[n]], b.fields[keys[n]], path + [Key(keys[n])])|;
      assert forall k :: k in keys <==> k in keys[..n] || k == keys[n];
    }
  }

  lemma {:induction false} NoItemDiffs(a: Json, b: Json, n: nat, path: Path)
    requires a.List? && b.List? && n <= |a.items| && n <= |b.items|
    ensures ItemDiffs(a, b, n, path) == [] <==> forall i :: 0 <= i < n ==> a.items[i] == b.items[i]
    decreases a, 1, n
  {
    if n > 0 {
      NoItemDiffs(a, b, n - 1, path);
      NoDiffsIffEqual(a.items[n - 1], b.items[n - 1], path + [Index(n - 1)]);
    }
  }

  /** Parity is sound and complete: no differences exactly when the trees agree apart from timestamps. */
  lemma ParityDecides(a: Json, b: Json)
    ensures Diffs(Normalize(a), Normalize(b), []) == [] <==> SameModuloTimestamps(a, b)
  {
    NoDiffsIffEqual(Normalize(a), Normalize(b), []);
    NormalFormsDecide(a, b);
  }

  // ----- the count is symmetric -----

  lemma {:induction false} CountSymmetric(a: Json, b: Json, path: Path, path': Path)
    ensures |Diffs(a, b, path)| == |Diffs(b, a, path')|
    decreases a, 2, 0
  {
    if SameType(a, b) {
      match a {
        case Obj(f) =>
          var g := b.fields;
          assert f.Keys * g.Keys == g.Keys * f.Keys;
          FieldCountSymmetric(a, b, Sorted(f.Keys * g.Keys), path, path');
        case List(s) =>
          ItemCountSymmetric(a, b, Shorter(s, b.items), path, path');
        case _ =>
      }
    }
  }

  lemma {:induction false} FieldCountSymmetric(a: Json, b: Json, keys: seq<string>, path: Path, path': Path)
    requires Share(a, b, keys)
    ensures |FieldDiffs(a, b, keys, path)| == |FieldDiffs(b, a, keys, path')|
    decreases a, 1, |keys|
  {
    if keys != [] {
      var n := |keys| - 1;
      FieldCountSymmetric(a, b, keys[..n], path, path');
      CountSymmetric(a.fields[keys[n]], b.fields[keys[n]], path + [Key(keys[n])], path' + [Key(keys[n])]);
    }
  }

  lemma {:induction false} ItemCountSymmetric(a: Json, b: Json, n: nat, path: Path, path': Path)
    requires a.List? && b.List? && n <= |a.items| && n <= |b.items|
    ensures |ItemDiffs(a, b, n, path)| == |ItemDiffs(b, a, n, path')|
    decreases a, 1, n
  {
    if n > 0 {
      ItemCountSymmetric(a, b, n - 1, path, path');
      CountSymmetric(a.items[n - 1], b.items[n - 1], path + [Index(n - 1)], path' + [Index(n - 1)]);
    }
  }

  // ----- every reported difference is one -----

  datatype Found = Nothing | Here(node: Json)

  function Lookup(node: Json, path: Path): Found
    decreases path
  {
    if path == [] then Here(node)
    else match (node, path[0])
      case (Obj(f), Key(k)) => if k in f then Lookup(f[k], path[1..]) else Nothing
      case (List(s), Index(i)) => if i < |s| then Lookup(s[i], path[1..]) else Nothing
      case _ => Nothing
  }

  /** Following d's path below base in both trees shows what d says. */
  ghost predicate Genuine(a: Json, b: Json, base: Path, d: Difference) {
    base <= d.path &&
    var x, y := Lookup(a, d.path[|base|..]), Lookup(b, d.path[|base|..]);
    match d.kind
    case MissingInNew => x.Here? && y == Nothing
    case MissingInLegacy => x == Nothing && y.Here?
    case TypeDiffers => x.Here? && y.Here? && !SameType(x.node, y.node)
    case LengthDiffers => x.Here? && y.Here? && x.node.List? && y.node.List? && |x.node.items| != |y.node.items|
    case ValueDiffers => x.Here? && y.Here? && SameType(x.node, y.node) && x.node != y.node
  }

  lemma GenuineBelow(a: Json, b: Json, base: Path, step: Step, x: Json, y: Json, d: Difference)
    requires Genuine(x, y, base + [step], d)
    requires forall rel: Path :: rel != [] && rel[0] == step ==>
      Lookup(a, rel) == Lookup(x, rel[1..]) && Lookup(b, rel) == Lookup(y, rel[1..])
    ensures Genuine(a, b, base, d)
  {
    var rel := d.path[|base|..];
    assert d.path[|base|] == (base + [step])[|base|] == step;
    assert rel[1..] == d.path[|base + [step]|..];
  }

  lemma {:induction false} DiffsAreGenuine(a: Json, b: Json, path: Path, d: Difference)
    requires d in Diffs(a, b, path)
    ensures Genuine(a, b, path, d)
    decreases a, 2, 0
  {
    assert path[|path|..] == [];
    if SameType(a, b) {
      match a {
        case Obj(f) =>
          if d in KeyDiffs(f.Keys, b.fields.Keys, path) {
            KeyDiffsAreGenuine(f, b.fields, path, d);
          } else {
            FieldDiffsAreGenuine(a, b, Sorted(f.Keys * b.fields.Keys), path, d);
          }
        case List(s) =>
          if d !in LengthDiffs(|s|, |b.items|, path) {
            ItemDiffsAreGenuine(a, b, Shorter(s, b.items), path, d);
          }
        case _ =>
      }
    }
  }

  lemma KeyDiffsAreGenuine(f: map<string, Json>, g: map<string, Json>, path: Path, d: Difference)
    requires d in KeyDiffs(f.Keys, g.Keys, path)
    ensures Genuine(Obj(f), Obj(g), path, d)
  {
    if d in Missing(Sorted(f.Keys - g.Keys), path, MissingInNew) {
      var k := MissingKey(Sorted(f.Keys - g.Keys), path, MissingInNew, d);
      OneStep(f, g, path, k);
    } else {
      var k := MissingKey(Sorted(g.Keys - f.Keys), path, MissingInLegacy, d);
      OneStep(g, f, path, k);
    }
  }

  lemma MissingKey(keys: seq<string>, path: Path, kind: Kind, d: Difference) returns (k: string)
    requires d in Missing(keys, path, kind)
    ensures k in keys && d == Difference(path + [Key(k)], kind)
  {
    var i :| 0 <= i < |keys| && d == Missing(keys, path, kind)[i];
    k := keys[i];
  }

  lemma OneStep(f: map<string, Json>, g: map<string, Json>, path: Path, k: string)
    requires k in f && k !in g
    ensures Genuine(Obj(f), Obj(g), path, Difference(path + [Key(k)], MissingInNew))
    ensures Genuine(Obj(g), Obj(f), path, Difference(path + [Key(k)], MissingInLegacy))
  {
    var rel := (path + [Key(k)])[|path|..];
    assert rel == [Key(k)] && rel[1..] == [];
  }

  lemma {:induction false} FieldDiffsAreGenuine(a: Json, b: Json, keys: seq<string>, path: Path, d: Difference)
    requires Share(a, b, keys)
    requires d in FieldDiffs(a, b, keys, path)
    ensures Genuine(a, b, path, d)
    decreases a, 1, |keys|
  {
    var n := |keys| - 1;
    if d in FieldDiffs(a, b, keys[..n], path) {
      FieldDiffsAreGenuine(a, b, keys[..n], path, d);
    } else {
      var x, y := a.fields[keys[n]], b.fields[keys[n]];
      DiffsAreGenuine(x, y, path + [Key(keys[n])], d);
      GenuineBelow(a, b, path, Key(keys[n]), x, y, d);
    }
  }

  lemma {:induction false} ItemDiffsAreGenuine(a: Json, b: Json, n: nat, path: Path, d: Difference)
    requires a.List? && b.List? && n <= |a.items| && n <= |b.items|
    requires d in ItemDiffs(a, b, n, path)
    ensures Genuine(a, b, path, d)
    decreases a, 1, n
  {
    if d in ItemDiffs(a, b, n - 1, path) {
      ItemDiffsAreGenuine(a, b, n - 1, path, d);
    } else {
      var x, y := a.items[n - 1], b.items[n - 1];
      DiffsAreGenuine(x, y, path + [Index(n - 1)], d);
      GenuineBelow(a, b, path, Index(n - 1), x, y, d);
    }
  }

  // ----- and every first divergence is reported -----

  predicate Scalar(node: Json) {
    !node.Obj? && !node.List?
  }

  /** Walking rel through both trees together, they first part at its end, in this way. */
  ghost predicate Diverge(a: Json, b: Json, rel: Path, kind: Kind)
    decreases rel
  {
    if rel == [] then
      match kind
      case TypeDiffers => !SameType(a, b)
      case LengthDiffers => a.List? && b.List? && |a.items| != |b.items|
      case ValueDiffers => SameType(a, b) && Scalar(a) && a != b
      case _ => false
    else match (a, b, rel[0])
      case (Obj(f), Obj(g), Key(k)) =>
        if k in f && k in g then Diverge(f[k], g[k], rel[1..], kind)
        else rel == [Key(k)] && ((k in f && kind == MissingInNew) || (k in g && kind == MissingInLegacy))
      case (List(s), List(t), Index(i)) => i < |s| && i < |t| && Diverge(s[i], t[i], rel[1..], kind)
      case _ => false
  }

  lemma {:induction false} DivergencesAreReported(a: Json, b: Json, path: Path, rel: Path, kind: Kind)
    requires Diverge(a, b, rel, kind)
    ensures Difference(path + rel, kind) in Diffs(a, b, path)
    decreases rel
  {
    if rel == [] {
      assert path + rel == path;
    } else {
      assert path + rel == path + [rel[0]] + rel[1..];
      match rel[0]
      case Key(k) =>
        var f, g := a.fields, b.fields;
        if k in f && k in g {
          DivergencesAreReported(f[k], g[k], path + [Key(k)], rel[1..], kind);
          FieldIsReported(a, b, Sorted(f.Keys * g.Keys), path, k, Difference(path + rel, kind));
        } else if k in f {
          MissingIsReported(Sorted(f.Keys - g.Keys), path, MissingInNew, k);
        } else {
          MissingIsReported(Sorted(g.Keys - f.Keys), path, MissingInLegacy, k);
        }
      case Index(i) =>
        DivergencesAreReported(a.items[i], b.items[i], path + [Index(i)], rel[1..], kind);
        ItemIsReported(a, b, Shorter(a.items, b.items), path, i, Difference(path + rel, kind));
    }
  }

  lemma MissingIsReported(keys: seq<string>, path: Path, kind: Kind, k: string)
    requires k in keys
    ensures Difference(path + [Key(k)], kind) in Missing(keys, path, kind)
  {
    var i :| 0 <= i < |keys| && keys[i] == k;
    assert Missing(keys, path, kind)[i] == Difference(path + [Key(k)], kind);
  }

  lemma {:induction false} FieldIsReported(a: Json, b: Json, keys: seq<string>, path: Path, k: string, d: Difference)
    requires Share(a, b, keys) && k in keys && d in Diffs(a.fields[k], b.fields[k], path + [Key(k)])
    ensures d in FieldDiffs(a, b, keys, path)
    decreases |keys|
  {
    var n := |keys| - 1;
    if keys[n] != k {
      FieldIsReported(a, b, keys[..n], path, k, d);
    }
  }

  lemma {:induction false} ItemIsReported(a: Json, b: Json, n: nat, path: Path, i: nat, d: Difference)
    requires a.List? && b.List? && i < n <= |a.items| && n <= |b.items|
    requires d in Diffs(a.items[i], b.items[i], path + [Index(i)])
    ensures d in ItemDiffs(a, b, n, path)
    decreases n
  {
    if i < n - 1 {
      ItemIsReported(a, b, n - 1, path, i, d);
    }
  }
}
