/**
 Configuration data as the validator sees it: a value, and the tree of dictionary and list objects
 that holds it and is changed in place.
 */
module Trees {
  import opened Wrappers

  datatype Value =
    | Scalar(text: string)
    | Plain(kind: string)   // a number, a boolean, a date or null
    | Record(fields: map<string, Value>)
    | List(items: seq<Value>)

  datatype Part = Key(key: string) | Index(index: nat)

  type Path = seq<Part>

  /**
   Part of a value, a character of a text included; None where Python raises KeyError, IndexError or
   TypeError.
   */
  function Child(v: Value, part: Part): Option<Value> {
    match v
    case Scalar(text) => if part.Index? && part.index < |text| then Some(Scalar([text[part.index]])) else None
    case Plain(_) => None
    case Record(fields) => if part.Key? && part.key in fields then Some(fields[part.key]) else None
    case List(items) => if part.Index? && part.index < |items| then Some(items[part.index]) else None
  }

  function WithChild(v: Value, part: Part, child: Value): Value
    requires Child(v, part).Some?
  {
    match v
    case Record(fields) => Record(fields[part.key := child])
    case List(items) => List(items[part.index := child])
    case Scalar(_) => v   // nothing changes in a text
  }

  /**
   The value without what stands at p, provided that is a field of a record; None where the walk to
   it fails.
   */
  function Deleted(v: Value, p: Path): Option<Value>
    requires p != []
    decreases p
  {
    if |p| == 1 then
      Some(if v.Record? && p[0].Key? then Record(v.fields - {p[0].key}) else v)
    else
      var child := Child(v, p[0]);
      if child.None? then None
      else
        var cut := Deleted(child.value, p[1..]);
        if cut.None? then None else Some(WithChild(v, p[0], cut.value))
  }

  /** What stands at a path. */
  function At(v: Value, p: Path): Option<Value>
    decreases p
  {
    if p == [] then Some(v)
    else
      var child := Child(v, p[0]);
      if child.None? then None else At(child.value, p[1..])
  }

  /** Indexing: a text by characters, a list by items, a record by keys, anything else not at all. */
  lemma OneStep(v: Value, part: Part)
    ensures At(v, [part]) == match v
      case Scalar(text) => if part.Index? && part.index < |text| then Some(Scalar(text[part.index..part.index + 1])) else None
      case Plain(_) => None
      case Record(fields) => if part.Key? && part.key in fields then Some(fields[part.key]) else None
      case List(items) => if part.Index? && part.index < |items| then Some(items[part.index]) else None
  {
    assert [part][1..] == [];
    assert Child(v, part).Some? ==> At(Child(v, part).value, []) == Child(v, part);
    if v.Scalar? && part.Index? && part.index < |v.text| {
      assert v.text[part.index..part.index + 1] == [v.text[part.index]];
    }
  }

  /** A deletion fails exactly when the walk to the last part does. */
  lemma {:induction false} FailsExactlyWhenWalkFails(v: Value, p: Path)
    requires p != []
    ensures Deleted(v, p).None? <==> At(v, p[..|p| - 1]).None?
    decreases p
  {
    if |p| > 1 && Child(v, p[0]).Some? {
      FailsExactlyWhenWalkFails(Child(v, p[0]).value, p[1..]);
      assert p[..|p| - 1][1..] == p[1..][..|p| - 2];
    }
  }

  /** The deletion takes a field of a record away with all below it; everything else stands where it stood. */
  lemma {:induction false} DeletesOnlyThere(v: Value, p: Path, q: Path)
    requires p != [] && Deleted(v, p).Some?
    ensures
      var parent := At(v, p[..|p| - 1]);
      && parent.Some?
      && (At(Deleted(v, p).value, q).Some? <==> At(v, q).Some? && !(p <= q && parent.value.Record?))
      && (!(q <= p) && At(Deleted(v, p).value, q).Some? ==> At(Deleted(v, p).value, q) == At(v, q))
    decreases p
  {
    FailsExactlyWhenWalkFails(v, p);
    if |p| == 1 {
      assert p[..0] == [];
      DeletesField(v, p[0], q);
    } else if q != [] {
      var child := Child(v, p[0]).value;
      assert p[..|p| - 1][1..] == p[1..][..|p| - 2];
      if q[0] == p[0] {
        DeletesOnlyThere(child, p[1..], q[1..]);
        PrefixByParts(p, q);
        PrefixByParts(q, p);
        ChildWithChild(v, p[0], Deleted(child, p[1..]).value);
      } else {
        OtherChildren(v, p[0], Deleted(child, p[1..]).value, q[0]);
      }
    }
  }

  lemma PrefixByParts(p: Path, q: Path)
    requires p != [] && q != [] && p[0] == q[0]
    ensures p <= q <==> p[1..] <= q[1..]
  {
    assert p == [p[0]] + p[1..] && q == [q[0]] + q[1..];
  }

  lemma DeletesField(v: Value, part: Part, q: Path)
    ensures
      var after := Deleted(v, [part]).value;
      && (At(after, q).Some? <==> At(v, q).Some? && !([part] <= q && v.Record?))
      && (!(q <= [part]) && At(after, q).Some? ==> At(after, q) == At(v, q))
  {
    if q != [] && v.Record? {
      assert [part] <= q <==> q[0] == part;
    }
  }

  lemma ChildWithChild(v: Value, part: Part, child: Value)
    requires Child(v, part).Some?
    ensures !v.Scalar? ==> Child(WithChild(v, part, child), part) == Some(child)
  {
  }

  lemma OtherChildren(v: Value, part: Part, child: Value, other: Part)
    requires Child(v, part).Some? && other != part
    ensures Child(WithChild(v, part, child), other) == Child(v, other)
  {
  }

  /** A dictionary object; `footprint` holds it and every object that was ever below it. */
  class Dict {
    var entries: map<string, Node>
    ghost const footprint: set<object>

    constructor (entries: map<string, Node>, ghost below: set<object>)
      ensures this.entries == entries && footprint == below + {this}
    {
      this.entries := entries;
      this.footprint := below + {this};
    }
  }

  /** A list object; nothing here adds or removes its items. */
  class Array {
    const items: seq<Node>
    ghost const footprint: set<object>

    constructor (items: seq<Node>, ghost below: set<object>)
      ensures this.items == items && footprint == below + {this}
    {
      this.items := items;
      this.footprint := below + {this};
    }
  }

  datatype Node = Text(text: string) | Bare(kind: string) | DictAt(dict: Dict) | ListAt(list: Array)

  /** Whatever can be reached from a node, now or once. */
  ghost function Foot(n: Node): set<object> {
    match n
    case Text(_) => {}
    case Bare(_) => {}
    case DictAt(d) => d.footprint
    case ListAt(l) => l.footprint
  }

  /** A tree: nothing below a node is shared. */
  ghost predicate Tree(n: Node)
    reads Foot(n)
    decreases Foot(n)
  {
    match n
    case Text(_) => true
    case Bare(_) => true
    case DictAt(d) =>
      && d in d.footprint
      && (forall k :: k in d.entries ==> Foot(d.entries[k]) <= d.footprint - {d})
      && (forall k :: k in d.entries ==> Tree(d.entries[k]))
      && (forall j, k :: j in d.entries && k in d.entries && j != k ==> Foot(d.entries[j]) !! Foot(d.entries[k]))
    case ListAt(l) =>
      && l in l.footprint
      && (forall i :: 0 <= i < |l.items| ==> Foot(l.items[i]) <= l.footprint - {l})
      && (forall i :: 0 <= i < |l.items| ==> Tree(l.items[i]))
      && (forall i, j :: 0 <= i < |l.items| && 0 <= j < |l.items| && i != j ==> Foot(l.items[i]) !! Foot(l.items[j]))
  }

  /** The value that a tree of objects holds. */
  function Read(n: Node): Value
    requires Tree(n)
    reads Foot(n)
    decreases Foot(n)
  {
    match n
    case Text(text) => Scalar(text)
    case Bare(kind) => Plain(kind)
    case DictAt(d) => Record(map k | k in d.entries :: Read(d.entries[k]))
    case ListAt(l) =>
      List(seq(|l.items|, i requires 0 <= i < |l.items| && Foot(l.items[i]) <= l.footprint - {l} && Tree(l.items[i])
                            reads Foot(n) => Read(l.items[i])))
  }

  lemma SameChild(v: Value, part: Part)
    requires Child(v, part).Some?
    ensures WithChild(v, part, Child(v, part).value) == v
  {
    if v.Record? { assert v.fields[part.key := v.fields[part.key]] == v.fields; }
  }

  /** A text has no fields to lose. */
  lemma {:induction false} NothingInText(text: string, p: Path)
    requires p != []
    ensures Deleted(Scalar(text), p).Some? ==> Deleted(Scalar(text), p).value == Scalar(text)
    decreases p
  {
    if |p| > 1 && Child(Scalar(text), p[0]).Some? {
      NothingInText([text[p[0].index]], p[1..]);
    }
  }

  /** What every deletion leaves behind. */
  twostate predicate Done(n: Node, p: Path, ok: bool)
    requires p != [] && old(Tree(n))
    reads Foot(n)
  {
    && Tree(n)
    && (ok <==> Deleted(old(Read(n)), p).Some?)
    && Read(n) == if ok then Deleted(old(Read(n)), p).value else old(Read(n))
  }

  /** `_delete_at_path`, in place: walks to the last part and pops it there from a dictionary. */
  method DeleteAtPath(n: Node, p: Path) returns (ok: bool)
    requires Tree(n) && p != []
    modifies Foot(n)
    ensures Done(n, p, ok)
    decreases p, 1
  {
    match n
    case Bare(_) => return |p| == 1;
    case Text(text) =>
      if |p| == 1 {
        return true;
      }
      if !p[0].Index? || p[0].index >= |text| {
        return false;
      }
      NothingInText([text[p[0].index]], p[1..]);
      ok := DeleteAtPath(Text([text[p[0].index]]), p[1..]);
    case DictAt(d) => ok := DeleteInDict(d, p);
    case ListAt(l) => ok := DeleteInList(l, p);
  }

  method Pop(d: Dict, k: string)
    requires Tree(DictAt(d))
    modifies d
    ensures Tree(DictAt(d)) && Read(DictAt(d)) == Record(old(Read(DictAt(d))).fields - {k})
  {
    d.entries := d.entries - {k};
    forall j | j in d.entries ensures Tree(d.entries[j]) && Read(d.entries[j]) == old(Read(d.entries[j])) {
      assert old(Tree(d.entries[j])) && d !in Foot(d.entries[j]);
    }
    assert Read(DictAt(d)).fields == old(Read(DictAt(d))).fields - {k};
  }

  method DeleteInDict(d: Dict, p: Path) returns (ok: bool)
    requires Tree(DictAt(d)) && p != []
    modifies d.footprint
    ensures Done(DictAt(d), p, ok)
    decreases p, 0, 1
  {
    if |p| == 1 {
      if p[0].Key? { Pop(d, p[0].key); }
      return true;
    }
    if !p[0].Key? || p[0].key !in d.entries {
      return false;
    }
    ok := DeleteBelow(d, p[0].key, p);
  }

  method DeleteBelow(d: Dict, k: string, p: Path) returns (ok: bool)
    requires Tree(DictAt(d)) && |p| > 1 && p[0] == Key(k) && k in d.entries
    modifies d.footprint
    ensures Done(DictAt(d), p, ok)
    decreases p, 0, 0
  {
    ghost var before := Read(DictAt(d));
    ok := DeleteAtPath(d.entries[k], p[1..]);
    forall j | j in d.entries && j != k ensures Tree(d.entries[j]) && Read(d.entries[j]) == old(Read(d.entries[j])) {
      assert old(Tree(d.entries[j])) && Foot(d.entries[j]) !! Foot(d.entries[k]);
    }
    assert Tree(DictAt(d));
    OneFieldChanged(before, Read(DictAt(d)), k);
    SameChild(before, p[0]);
  }

  lemma OneFieldChanged(before: Value, after: Value, k: string)
    requires before.Record? && after.Record? && k in before.fields && after.fields.Keys == before.fields.Keys
    requires forall j :: j in before.fields && j != k ==> after.fields[j] == before.fields[j]
    ensures after == WithChild(before, Key(k), after.fields[k])
  {
    assert after.fields == before.fields[k := after.fields[k]];
  }

  method DeleteInList(l: Array, p: Path) returns (ok: bool)
    requires Tree(ListAt(l)) && p != []
    modifies l.footprint
    ensures Done(ListAt(l), p, ok)
    decreases p, 0
  {
    if |p| == 1 {
      return true;
    }
    if !p[0].Index? || p[0].index >= |l.items| {
      return false;
    }
    var i := p[0].index;
    ok := DeleteAtPath(l.items[i], p[1..]);
    forall j | 0 <= j < |l.items| && j != i ensures Tree(l.items[j]) && Read(l.items[j]) == old(Read(l.items[j])) {
      assert old(Tree(l.items[j])) && Foot(l.items[j]) !! Foot(l.items[i]);
    }
    assert Tree(ListAt(l));
    assert Read(ListAt(l)).items == old(Read(ListAt(l))).items[i := Read(l.items[i])];
    SameChild(old(Read(ListAt(l))), p[0]);
  }
}

/**
 Validation that strips unknown fields (control_station_lite/shared/_validation.py), for schemas of
 nested records and lists.
 */
module StripUnknowns {
  import opened Trees
  import opened Wrappers

  /** `Leaf` is any field type without fields of its own. */
  datatype Schema =
    | Leaf(accepts: Value -> bool)
    | Model(declared: map<string, Field>)
    | ListOf(item: Schema)

  datatype Field = Field(schema: Schema, required: bool)

  /** Some error other than an unknown field is reported. */
  predicate HasRealError(s: Schema, v: Value)
    decreases v
  {
    match s
    case Leaf(accepts) => !accepts(v)
    case ListOf(item) => !v.List? || exists i :: 0 <= i < |v.items| && HasRealError(item, v.items[i])
    case Model(declared) =>
      !v.Record? || exists k ::
        k in declared && if k in v.fields then HasRealError(declared[k].schema, v.fields[k]) else declared[k].required
  }

  /** At path p stands a value of the wrong kind, one its leaf type refuses, or nothing where a field is required. */
  predicate ErrorAt(s: Schema, v: Value, p: Path)
    decreases p
  {
    if p == [] then
      match s
      case Leaf(accepts) => !accepts(v)
      case Model(_) => !v.Record?
      case ListOf(_) => !v.List?
    else if s.Model? && v.Record? && p[0].Key? && p[0].key in s.declared then
      if p[0].key in v.fields then ErrorAt(s.declared[p[0].key].schema, v.fields[p[0].key], p[1..])
      else |p| == 1 && s.declared[p[0].key].required
    else if s.ListOf? && v.List? && p[0].Index? && p[0].index < |v.items| then
      ErrorAt(s.item, v.items[p[0].index], p[1..])
    else false
  }

  /** What is wrong at some path is a real error. */
  lemma {:induction false} PlacedErrorIsReal(s: Schema, v: Value, p: Path)
    requires ErrorAt(s, v, p)
    ensures HasRealError(s, v)
    decreases p
  {
    if p != [] {
      if s.Model? && p[0].key in v.fields {
        PlacedErrorIsReal(s.declared[p[0].key].schema, v.fields[p[0].key], p[1..]);
      } else if s.ListOf? {
        PlacedErrorIsReal(s.item, v.items[p[0].index], p[1..]);
      }
    }
  }

  /** And every real error is wrong at some path. */
  lemma {:induction false} PlaceOfError(s: Schema, v: Value) returns (p: Path)
    requires HasRealError(s, v)
    ensures ErrorAt(s, v, p)
    decreases v
  {
    if s.Model? && v.Record? {
      var k :| k in s.declared && if k in v.fields then HasRealError(s.declared[k].schema, v.fields[k]) else s.declared[k].required;
      p := [Key(k)];
      if k in v.fields {
        var rest := PlaceOfError(s.declared[k].schema, v.fields[k]);
        p := [Key(k)] + rest;
        assert p[1..] == rest;
      }
    } else if s.ListOf? && v.List? {
      var i :| 0 <= i < |v.items| && HasRealError(s.item, v.items[i]);
      var rest := PlaceOfError(s.item, v.items[i]);
      p := [Index(i)] + rest;
      assert p[1..] == rest;
    } else {
      p := [];
    }
  }

  /** Path p is reported as an unknown field. */
  predicate Unknown(s: Schema, v: Value, p: Path)
    decreases p
  {
    p != [] &&
    if s.Model? && v.Record? && p[0].Key? && p[0].key in v.fields then
      if p[0].key in s.declared then Unknown(s.declared[p[0].key].schema, v.fields[p[0].key], p[1..])
      else |p| == 1
    else if s.ListOf? && v.List? && p[0].Index? && p[0].index < |v.items| then
      Unknown(s.item, v.items[p[0].index], p[1..])
    else false
  }

  /** The value without any undeclared field. */
  function Strip(s: Schema, v: Value): Value
    decreases v
  {
    if s.Model? && v.Record? then
      Record(map k | k in v.fields && k in s.declared :: Strip(s.declared[k].schema, v.fields[k]))
    else if s.ListOf? && v.List? then
      List(seq(|v.items|, i requires 0 <= i < |v.items| => Strip(s.item, v.items[i])))
    else v
  }

  // ---------------------------------------------------------------------------------------
  // Removing a set of paths at once
  // ---------------------------------------------------------------------------------------

  /** The paths of P that go through `part`, from there on. */
  function Through(P: set<Path>, part: Part): set<Path> {
    set p | p in P && p != [] && p[0] == part :: p[1..]
  }

  function Cut(v: Value, P: set<Path>): Value
    decreases v
  {
    match v
    case Scalar(_) => v
    case Plain(_) => v
    case Record(fields) =>
      Record(map k | k in fields && [Key(k)] !in P :: Cut(fields[k], Through(P, Key(k))))
    case List(items) =>
      List(seq(|items|, i requires 0 <= i < |items| => Cut(items[i], Through(P, Index(i)))))
  }

  lemma ThroughIs(P: set<Path>, part: Part, p: Path)
    ensures p in Through(P, part) <==> [part] + p in P
  {
    assert ([part] + p)[1..] == p;
    if p in Through(P, part) {
      var q :| q in P && q != [] && q[0] == part && q[1..] == p;
      assert q == [part] + p;
    }
  }

  lemma ThroughWith(P: set<Path>, p: Path, part: Part)
    requires p != []
    ensures Through(P + {p}, part) == if p[0] == part then Through(P, part) + {p[1..]} else Through(P, part)
  {
    forall q ensures q in Through(P + {p}, part) <==>
                     q in Through(P, part) || (p[0] == part && q == p[1..])
    {
      ThroughIs(P + {p}, part, q);
      ThroughIs(P, part, q);
      assert p[0] == part ==> p == [part] + p[1..];
    }
  }

  lemma {:induction false} CutNothing(v: Value)
    ensures Cut(v, {}) == v
    decreases v
  {
    forall part: Part ensures Through({}, part) == {} { }
    match v
    case Scalar(_) =>
    case Plain(_) =>
    case Record(fields) =>
      forall k | k in fields ensures Cut(fields[k], {}) == fields[k] { CutNothing(fields[k]); }
    case List(items) =>
      forall i | 0 <= i < |items| ensures Cut(items[i], {}) == items[i] { CutNothing(items[i]); }
  }

  /** p leads to a key of a record. */
  predicate LeadsToKey(v: Value, p: Path)
    decreases p
  {
    p != [] && !v.Scalar? && Child(v, p[0]).Some? && if |p| == 1 then v.Record? else LeadsToKey(Child(v, p[0]).value, p[1..])
  }

  /** No path of P is a proper prefix of p. */
  predicate NoneAbove(P: set<Path>, p: Path) {
    forall q :: q in P ==> !(q < p)
  }

  lemma PrefixBelow(q: Path, p: Path)
    requires p != []
    ensures q < p[1..] <==> [p[0]] + q < p
  {
    assert forall i :: 0 <= i < |q| && |q| < |p| - 1 ==> (q[i] == p[1..][i] <==> ([p[0]] + q)[i + 1] == p[i + 1]);
    if [p[0]] + q < p {
      assert q == ([p[0]] + q)[1..];
    }
  }

  lemma NoneAboveBelow(P: set<Path>, p: Path)
    requires |p| > 1 && NoneAbove(P, p)
    ensures [p[0]] !in P && NoneAbove(Through(P, p[0]), p[1..])
  {
    assert [p[0]] < p;
    forall q | q in Through(P, p[0]) ensures !(q < p[1..]) {
      ThroughIs(P, p[0], q);
      PrefixBelow(q, p);
    }
  }

  lemma {:induction false} DeleteExtendsCut(v: Value, P: set<Path>, p: Path)
    requires LeadsToKey(v, p) && NoneAbove(P, p)
    ensures Deleted(Cut(v, P), p) == Some(Cut(v, P + {p}))
    decreases p
  {
    if |p| == 1 {
      DeleteLast(v.fields, P, p[0].key);
      assert p == [Key(p[0].key)];
    } else {
      var child, cut := Child(v, p[0]).value, Cut(v, P + {p});
      NoneAboveBelow(P, p);
      DeleteExtendsCut(child, Through(P, p[0]), p[1..]);
      ThroughWith(P, p, p[0]);
      CutOneChild(v, P, p);
    }
  }

  lemma DeleteLast(fields: map<string, Value>, P: set<Path>, k: string)
    ensures Cut(Record(fields), P).fields - {k} == Cut(Record(fields), P + {[Key(k)]}).fields
  {
    forall j | j in fields && j != k ensures Through(P + {[Key(k)]}, Key(j)) == Through(P, Key(j)) {
      ThroughWith(P, [Key(k)], Key(j));
    }
  }

  /** Below the top, one more path changes one child only. */
  lemma CutOneChild(v: Value, P: set<Path>, p: Path)
    requires |p| > 1 && !v.Scalar? && Child(v, p[0]).Some? && [p[0]] !in P
    ensures Child(Cut(v, P), p[0]) == Some(Cut(Child(v, p[0]).value, Through(P, p[0])))
    ensures WithChild(Cut(v, P), p[0], Cut(Child(v, p[0]).value, Through(P + {p}, p[0]))) == Cut(v, P + {p})
  {
    forall part: Part | part != p[0] ensures Through(P + {p}, part) == Through(P, part) {
      ThroughWith(P, p, part);
    }
    if v.Record? { CutOneField(v.fields, P, P + {p}, p[0].key); }
    else { CutOneItem(v.items, P, P + {p}, p[0].index); }
  }

  lemma CutOneField(fields: map<string, Value>, P: set<Path>, Q: set<Path>, k: string)
    requires k in fields && [Key(k)] !in P
    requires forall j: string :: [Key(j)] in P <==> [Key(j)] in Q
    requires forall part: Part :: part != Key(k) ==> Through(Q, part) == Through(P, part)
    ensures Cut(Record(fields), P).fields[k := Cut(fields[k], Through(Q, Key(k)))] == Cut(Record(fields), Q).fields
  {
  }

  lemma CutOneItem(items: seq<Value>, P: set<Path>, Q: set<Path>, i: nat)
    requires i < |items|
    requires forall part: Part :: part != Index(i) ==> Through(Q, part) == Through(P, part)
    ensures Cut(List(items), P).items[i := Cut(items[i], Through(Q, Index(i)))] == Cut(List(items), Q).items
  {
  }

  // ---------------------------------------------------------------------------------------
  // Reported paths
  // ---------------------------------------------------------------------------------------

  lemma {:induction false} UnknownLeadsToKey(s: Schema, v: Value, p: Path)
    requires Unknown(s, v, p)
    ensures LeadsToKey(v, p)
    decreases p
  {
    if s.Model? && p[0].key in s.declared {
      UnknownLeadsToKey(s.declared[p[0].key].schema, v.fields[p[0].key], p[1..]);
    } else if s.ListOf? {
      UnknownLeadsToKey(s.item, v.items[p[0].index], p[1..]);
    }
  }

  /** No unknown field is reported inside another one. */
  lemma {:induction false} UnknownsAreApart(s: Schema, v: Value, p: Path, q: Path)
    requires Unknown(s, v, p) && Unknown(s, v, q)
    ensures !(q < p)
    decreases p
  {
    if q < p {
      assert q[0] == p[0] && q[1..] < p[1..];
      if s.Model? && p[0].key in s.declared {
        UnknownsAreApart(s.declared[p[0].key].schema, v.fields[p[0].key], p[1..], q[1..]);
      } else if s.ListOf? {
        UnknownsAreApart(s.item, v.items[p[0].index], p[1..], q[1..]);
      }
    }
  }

  ghost predicate Reports(s: Schema, v: Value, P: set<Path>) {
    forall p :: p in P <==> Unknown(s, v, p)
  }

  lemma UnknownBelow(s: Schema, v: Value, part: Part, p: Path, sub: Schema, child: Value)
    requires Child(v, part) == Some(child)
    requires (s.Model? && part.Key? && part.key in s.declared && sub == s.declared[part.key].schema)
             || (s.ListOf? && part.Index? && sub == s.item)
    ensures Unknown(s, v, [part] + p) <==> Unknown(sub, child, p)
  {
    assert ([part] + p)[1..] == p;
  }

  lemma ReportsBelow(s: Schema, v: Value, P: set<Path>, part: Part, sub: Schema, child: Value)
    requires Reports(s, v, P) && Child(v, part) == Some(child)
    requires (s.Model? && part.Key? && part.key in s.declared && sub == s.declared[part.key].schema)
             || (s.ListOf? && part.Index? && sub == s.item)
    ensures Reports(sub, child, Through(P, part))
  {
    forall p ensures p in Through(P, part) <==> Unknown(sub, child, p) {
      var q := [part] + p;
      ThroughIs(P, part, p);
      assert q in P <==> Unknown(s, v, q);
      UnknownBelow(s, v, part, p, sub, child);
    }
  }

  lemma UnknownAtTop(s: Schema, v: Value, k: string)
    requires s.Model? && v.Record? && k in v.fields
    ensures Unknown(s, v, [Key(k)]) <==> k !in s.declared
  {
    assert [Key(k)][1..] == [];
  }

  /** Cutting all reported paths at once is stripping. */
  lemma {:induction false} CutUnknownsIsStrip(s: Schema, v: Value, P: set<Path>)
    requires Reports(s, v, P)
    ensures Cut(v, P) == Strip(s, v)
    decreases v
  {
    if s.Model? && v.Record? {
      forall k | k in v.fields
        ensures [Key(k)] !in P <==> k in s.declared
        ensures k in s.declared ==> Cut(v.fields[k], Through(P, Key(k))) == Strip(s.declared[k].schema, v.fields[k])
      {
        var top := [Key(k)];
        assert top in P <==> Unknown(s, v, top);
        UnknownAtTop(s, v, k);
        if k in s.declared {
          ReportsBelow(s, v, P, Key(k), s.declared[k].schema, v.fields[k]);
          CutUnknownsIsStrip(s.declared[k].schema, v.fields[k], Through(P, Key(k)));
        }
      }
    } else if s.ListOf? && v.List? {
      forall i | 0 <= i < |v.items| ensures Cut(v.items[i], Through(P, Index(i))) == Strip(s.item, v.items[i]) {
        ReportsBelow(s, v, P, Index(i), s.item, v.items[i]);
        CutUnknownsIsStrip(s.item, v.items[i], Through(P, Index(i)));
      }
    } else {
      assert P == {};
      CutNothing(v);
    }
  }

  // ---------------------------------------------------------------------------------------
  // What stripping keeps
  // ---------------------------------------------------------------------------------------

  /** Stripping neither causes nor hides a real error. */
  lemma {:induction false} StripKeepsRealErrors(s: Schema, v: Value)
    ensures HasRealError(s, Strip(s, v)) <==> HasRealError(s, v)
    decreases v
  {
    if s.Model? && v.Record? {
      forall k | k in v.fields && k in s.declared
        ensures HasRealError(s.declared[k].schema, Strip(s, v).fields[k]) <==>
                HasRealError(s.declared[k].schema, v.fields[k])
      {
        StripKeepsRealErrors(s.declared[k].schema, v.fields[k]);
      }
      var w := Strip(s, v);
      forall k | k in s.declared
        ensures (if k in w.fields then HasRealError(s.declared[k].schema, w.fields[k]) else s.declared[k].required)
             == (if k in v.fields then HasRealError(s.declared[k].schema, v.fields[k]) else s.declared[k].required)
      {
      }
    } else if s.ListOf? && v.List? {
      forall i | 0 <= i < |v.items|
        ensures HasRealError(s.item, Strip(s, v).items[i]) <==> HasRealError(s.item, v.items[i])
      {
        StripKeepsRealErrors(s.item, v.items[i]);
      }
    }
  }

  /** No unknown field is left anywhere. */
  lemma {:induction false} StrippedHasNoUnknowns(s: Schema, v: Value, p: Path)
    ensures !Unknown(s, Strip(s, v), p)
    decreases p
  {
    if Unknown(s, Strip(s, v), p) {
      if s.Model? {
        StrippedHasNoUnknowns(s.declared[p[0].key].schema, v.fields[p[0].key], p[1..]);
      } else {
        StrippedHasNoUnknowns(s.item, v.items[p[0].index], p[1..]);
      }
    }
  }

  /** The schema declared for position p. */
  function DeclaredAt(s: Schema, p: Path): Option<Schema>
    decreases p
  {
    if p == [] then Some(s)
    else if s.Model? && p[0].Key? && p[0].key in s.declared then DeclaredAt(s.declared[p[0].key].schema, p[1..])
    else if s.ListOf? && p[0].Index? then DeclaredAt(s.item, p[1..])
    else None
  }

  /** A declared position is there after stripping exactly when it was, and a leaf is unchanged. */
  lemma {:induction false} DeclaredIsKept(s: Schema, v: Value, p: Path)
    requires DeclaredAt(s, p).Some?
    ensures At(Strip(s, v), p).Some? <==> At(v, p).Some?
    ensures At(v, p).Some? ==> At(Strip(s, v), p).value == Strip(DeclaredAt(s, p).value, At(v, p).value)
    ensures At(v, p).Some? && DeclaredAt(s, p).value.Leaf? ==> At(Strip(s, v), p) == At(v, p)
    decreases p
  {
    if p != [] && Child(v, p[0]).Some? {
      DeclaredIsKept(if s.Model? then s.declared[p[0].key].schema else s.item, Child(v, p[0]).value, p[1..]);
    }
  }

  // ---------------------------------------------------------------------------------------
  // validate_stripping_unknowns
  // ---------------------------------------------------------------------------------------

  function Paths(errors: seq<Path>): set<Path> {
    set p | p in errors
  }

  /** Whatever was deleted before, the next reported path can be deleted, and it alone goes. */
  lemma NextDeletion(s: Schema, v: Value, errors: seq<Path>, i: nat)
    requires Reports(s, v, Paths(errors)) && i < |errors|
    ensures errors[i] != []
    ensures Deleted(Cut(v, Paths(errors[..i])), errors[i]) == Some(Cut(v, Paths(errors[..i + 1])))
  {
    var done, p := Paths(errors[..i]), errors[i];
    assert Paths(errors[..i + 1]) == done + {p};
    assert p in Paths(errors);
    UnknownLeadsToKey(s, v, p);
    forall q | q in done ensures !(q < p) {
      assert q in Paths(errors);
      UnknownsAreApart(s, v, p, q);
    }
    DeleteExtendsCut(v, done, p);
  }

  /**
   `errors` are the paths of the unknown fields as the validator reports them, in any order, and
   `cleaned` is what `copy.deepcopy` makes of `raw`.  The answer is None when the validation error is
   raised again; `raw` is left as it is.
   */
  method ValidateStrippingUnknowns(s: Schema, raw: Node, cleaned: Node, errors: seq<Path>) returns (r: Option<Value>)
    requires Tree(raw) && Tree(cleaned) && Foot(raw) !! Foot(cleaned) && Read(cleaned) == Read(raw)
    requires Reports(s, Read(raw), Paths(errors))
    modifies Foot(cleaned)
    ensures Tree(raw) && Read(raw) == old(Read(raw))
    ensures r == if HasRealError(s, Read(raw)) then None else Some(Strip(s, Read(raw)))
  {
    ghost var value := Read(raw);
    CutUnknownsIsStrip(s, value, Paths(errors));
    CutNothing(value);
    assert Paths(errors[..0]) == {} && errors[..|errors|] == errors;
    if HasRealError(s, Read(raw)) {
      return None;
    }
    if errors == [] {
      return Some(Read(raw));
    }
    for i := 0 to |errors|
      invariant Tree(raw) && Read(raw) == value
      invariant Tree(cleaned) && Read(cleaned) == Cut(value, Paths(errors[..i]))
    {
      NextDeletion(s, value, errors, i);
      var found := DeleteAtPath(cleaned, errors[i]);
      assert found;
    }
    StripKeepsRealErrors(s, value);
    if HasRealError(s, Read(cleaned)) {
      return None;
    }
    return Some(Read(cleaned));
  }
}
