/** Inlining every $ref of a schema (llm/inlined.py): the recursion through the definitions always
    ends, and what it returns is the plain substitution of each reference by its definition. */
module Inlining {
  import opened Options

  datatype Json = Obj(fields: seq<Field>) | Arr(items: seq<Json>) | Leaf(text: string)
  datatype Field = Field(key: string, value: Json)

  type Definitions = map<string, seq<Field>>

  /** Recursive and Missing stand for the two exceptions. */
  datatype Result<T> = Ok(value: T) | Recursive(names: seq<string>) | Missing(name: string)

  const REF := "$ref"

  predicate HasRef(fields: seq<Field>) {
    exists i :: 0 <= i < |fields| && fields[i].key == REF
  }

  /** The definition an object refers to: what follows the last slash of its $ref. */
  function RefName(fields: seq<Field>): string
    requires HasRef(fields)
  {
    if fields[0].key == REF then (match fields[0].value case Leaf(text) => LastSegment(text) case _ => "")
    else RefName(fields[1..])
  }

  function LastSegment(s: string): string {
    if s == [] then []
    else if s[|s| - 1] == '/' then []
    else LastSegment(s[..|s| - 1]) + [s[|s| - 1]]
  }

  /** The name is what follows the last slash, or the whole text when there is none. */
  lemma {:induction false} LastSegmentExactly(before: string, name: string)
    requires '/' !in name
    ensures LastSegment(before + "/" + name) == name && LastSegment(name) == name
  {
    if name == [] {
      assert before + "/" + name == before + "/";
    } else {
      var shorter := name[..|name| - 1];
      LastSegmentExactly(before, shorter);
      assert (before + "/" + name)[..|before + "/" + name| - 1] == before + "/" + shorter;
    }
  }

  /** A definition is named by the first reference among the fields. */
  lemma {:induction false} RefNameExactly(fields: seq<Field>, i: nat)
    requires i < |fields| && fields[i].key == REF && forall j :: 0 <= j < i ==> fields[j].key != REF
    ensures RefName(fields) == match fields[i].value case Leaf(text) => LastSegment(text) case _ => ""
  {
    if i > 0 {
      RefNameExactly(fields[1..], i - 1);
    }
  }

  ghost function Unseen(defs: Definitions, seen: seq<string>): nat {
    |defs.Keys - (set s | s in seen)|
  }

  lemma SeeingOneMore(defs: Definitions, seen: seq<string>, name: string)
    requires name in defs && name !in seen
    ensures Unseen(defs, seen + [name]) < Unseen(defs, seen)
  {
    var before, after := defs.Keys - (set s | s in seen), defs.Keys - (set s | s in seen + [name]);
    assert after == before - {name};
  }

  /** An object: its own reference followed, or each of its values in turn. */
  function Inline(fields: seq<Field>, defs: Definitions, seen: seq<string>): Result<seq<Field>>
    decreases Unseen(defs, seen), fields, 1
  {
    if !HasRef(fields) then InlineFields(fields, defs, seen)
    else
      var name := RefName(fields);
      if name in seen then Recursive(seen + [name])
      else if name !in defs then Missing(name)
      else
        SeeingOneMore(defs, seen, name);
        Inline(defs[name], defs, seen + [name])
  }

  function InlineFields(fields: seq<Field>, defs: Definitions, seen: seq<string>): Result<seq<Field>>
    decreases Unseen(defs, seen), fields, 0
  {
    if fields == [] then Ok([])
    else
      match InlineValue(fields[0].value, defs, seen)
      case Recursive(names) => Recursive(names)
      case Missing(name) => Missing(name)
      case Ok(value) =>
        match InlineFields(fields[1..], defs, seen)
        case Ok(rest) => Ok([Field(fields[0].key, value)] + rest)
        case failed => failed
  }

  /** A list is gone through one level deep; a list inside a list stays as it is. */
  function InlineValue(value: Json, defs: Definitions, seen: seq<string>): Result<Json>
    decreases Unseen(defs, seen), value, 1
  {
    if !value.Arr? then InlineItem(value, defs, seen)
    else
      match InlineItems(value.items, defs, seen)
      case Ok(items) => Ok(Arr(items))
      case Recursive(names) => Recursive(names)
      case Missing(name) => Missing(name)
  }

  function InlineItem(value: Json, defs: Definitions, seen: seq<string>): Result<Json>
    decreases Unseen(defs, seen), value, 0
  {
    if !value.Obj? then Ok(value)
    else
      match Inline(value.fields, defs, seen)
      case Ok(fields) => Ok(Obj(fields))
      case Recursive(names) => Recursive(names)
      case Missing(name) => Missing(name)
  }

  function InlineItems(items: seq<Json>, defs: Definitions, seen: seq<string>): Result<seq<Json>>
    decreases Unseen(defs, seen), items
  {
    if items == [] then Ok([])
    else
      match InlineItem(items[0], defs, seen)
      case Recursive(names) => Recursive(names)
      case Missing(name) => Missing(name)
      case Ok(item) =>
        match InlineItems(items[1..], defs, seen)
        case Ok(rest) => Ok([item] + rest)
        case failed => failed
  }

  // ---------------------------------------------------------------------------------------------
  // Nothing left to resolve.

  /** No $ref can be reached through objects and one level of lists. */
  predicate Resolved(fields: seq<Field>)
    decreases fields
  {
    !HasRef(fields) && forall i :: 0 <= i < |fields| ==> ResolvedValue(fields[i].value)
  }

  predicate ResolvedValue(value: Json)
    decreases value
  {
    match value
    case Leaf(_) => true
    case Obj(fields) => Resolved(fields)
    case Arr(items) => forall i :: 0 <= i < |items| ==> items[i].Obj? ==> Resolved(items[i].fields)
  }

  lemma {:induction false} InlineResolves(fields: seq<Field>, defs: Definitions, seen: seq<string>)
    ensures Inline(fields, defs, seen).Ok? ==> Resolved(Inline(fields, defs, seen).value)
    decreases Unseen(defs, seen), fields, 1
  {
    if !HasRef(fields) {
      InlineFieldsResolves(fields, defs, seen);
    } else {
      var name := RefName(fields);
      if name !in seen && name in defs {
        SeeingOneMore(defs, seen, name);
        InlineResolves(defs[name], defs, seen + [name]);
      }
    }
  }

  lemma {:induction false} InlineFieldsResolves(fields: seq<Field>, defs: Definitions, seen: seq<string>)
    ensures InlineFields(fields, defs, seen).Ok? ==>
              var r := InlineFields(fields, defs, seen).value;
              && |r| == |fields| && (forall i :: 0 <= i < |r| ==> r[i].key == fields[i].key)
              && (forall i :: 0 <= i < |r| ==> ResolvedValue(r[i].value))
    decreases Unseen(defs, seen), fields, 0
  {
    if fields != [] {
      InlineValueResolves(fields[0].value, defs, seen);
      InlineFieldsResolves(fields[1..], defs, seen);
    }
  }

  lemma {:induction false} InlineValueResolves(value: Json, defs: Definitions, seen: seq<string>)
    ensures InlineValue(value, defs, seen).Ok? ==> ResolvedValue(InlineValue(value, defs, seen).value)
    decreases Unseen(defs, seen), value, 1
  {
    match value
    case Leaf(_) =>
    case Obj(fields) => InlineResolves(fields, defs, seen);
    case Arr(items) => InlineItemsResolves(items, defs, seen);
  }

  lemma {:induction false} InlineItemsResolves(items: seq<Json>, defs: Definitions, seen: seq<string>)
    ensures InlineItems(items, defs, seen).Ok? ==>
              forall item :: item in InlineItems(items, defs, seen).value ==> item.Obj? ==> Resolved(item.fields)
    decreases Unseen(defs, seen), items
  {
    if items != [] {
      if items[0].Obj? {
        InlineResolves(items[0].fields, defs, seen);
      }
      InlineItemsResolves(items[1..], defs, seen);
    }
  }

  /** Inlining leaves alone what has no reference to inline: every key and value, in order. */
  lemma {:induction false} ResolvedStays(fields: seq<Field>, defs: Definitions, seen: seq<string>)
    requires Resolved(fields)
    ensures Inline(fields, defs, seen) == Ok(fields)
    decreases fields, 1
  {
    ResolvedFieldsStay(fields, defs, seen);
  }

  lemma {:induction false} ResolvedFieldsStay(fields: seq<Field>, defs: Definitions, seen: seq<string>)
    requires forall i :: 0 <= i < |fields| ==> ResolvedValue(fields[i].value)
    ensures InlineFields(fields, defs, seen) == Ok(fields)
    decreases fields, 0
  {
    if fields != [] {
      ResolvedValueStays(fields[0].value, defs, seen);
      ResolvedFieldsStay(fields[1..], defs, seen);
      assert fields == [fields[0]] + fields[1..];
    }
  }

  lemma {:induction false} ResolvedValueStays(value: Json, defs: Definitions, seen: seq<string>)
    requires ResolvedValue(value)
    ensures InlineValue(value, defs, seen) == Ok(value)
    decreases value, 1
  {
    match value
    case Leaf(_) =>
    case Obj(fields) => ResolvedStays(fields, defs, seen);
    case Arr(items) => ResolvedItemsStay(items, defs, seen);
  }

  lemma {:induction false} ResolvedItemsStay(items: seq<Json>, defs: Definitions, seen: seq<string>)
    requires forall i :: 0 <= i < |items| ==> items[i].Obj? ==> Resolved(items[i].fields)
    ensures InlineItems(items, defs, seen) == Ok(items)
    decreases items
  {
    if items != [] {
      if items[0].Obj? {
        ResolvedStays(items[0].fields, defs, seen);
      }
      ResolvedItemsStay(items[1..], defs, seen);
      assert items == [items[0]] + items[1..];
    }
  }

  // ---------------------------------------------------------------------------------------------
  // What inlining means: substitution, as deep as the fuel allows, remembering nothing.

  function Expand(fields: seq<Field>, defs: Definitions, fuel: nat): Option<seq<Field>>
    decreases fuel, fields, 1
  {
    if !HasRef(fields) then ExpandFields(fields, defs, fuel)
    else if fuel == 0 || RefName(fields) !in defs then None
    else Expand(defs[RefName(fields)], defs, fuel - 1)
  }

  function ExpandFields(fields: seq<Field>, defs: Definitions, fuel: nat): Option<seq<Field>>
    decreases fuel, fields, 0
  {
    if fields == [] then Some([])
    else
      var value, rest := ExpandValue(fields[0].value, defs, fuel), ExpandFields(fields[1..], defs, fuel);
      if value.None? || rest.None? then None else Some([Field(fields[0].key, value.value)] + rest.value)
  }

  function ExpandValue(value: Json, defs: Definitions, fuel: nat): Option<Json>
    decreases fuel, value, 1
  {
    match value
    case Leaf(_) => Some(value)
    case Obj(fields) =>
      var inner := Expand(fields, defs, fuel);
      if inner.None? then None else Some(Obj(inner.value))
    case Arr(items) =>
      var inner := ExpandItems(items, defs, fuel);
      if inner.None? then None else Some(Arr(inner.value))
  }

  function ExpandItems(items: seq<Json>, defs: Definitions, fuel: nat): Option<seq<Json>>
    decreases fuel, items, 0
  {
    if items == [] then Some([])
    else
      var first := if items[0].Obj? then ExpandValue(items[0], defs, fuel) else Some(items[0]);
      var rest := ExpandItems(items[1..], defs, fuel);
      if first.None? || rest.None? then None else Some([first.value] + rest.value)
  }

  /** More fuel never changes an answer. */
  lemma {:induction false} MoreFuel(fields: seq<Field>, defs: Definitions, fuel: nat, more: nat)
    requires fuel <= more && Expand(fields, defs, fuel).Some?
    ensures Expand(fields, defs, more) == Expand(fields, defs, fuel)
    decreases fuel, fields, 1
  {
    if !HasRef(fields) {
      MoreFuelFields(fields, defs, fuel, more);
    } else {
      MoreFuel(defs[RefName(fields)], defs, fuel - 1, more - 1);
    }
  }

  lemma {:induction false} MoreFuelFields(fields: seq<Field>, defs: Definitions, fuel: nat, more: nat)
    requires fuel <= more && ExpandFields(fields, defs, fuel).Some?
    ensures ExpandFields(fields, defs, more) == ExpandFields(fields, defs, fuel)
    decreases fuel, fields, 0
  {
    if fields != [] {
      MoreFuelValue(fields[0].value, defs, fuel, more);
      MoreFuelFields(fields[1..], defs, fuel, more);
    }
  }

  lemma {:induction false} MoreFuelValue(value: Json, defs: Definitions, fuel: nat, more: nat)
    requires fuel <= more && ExpandValue(value, defs, fuel).Some?
    ensures ExpandValue(value, defs, more) == ExpandValue(value, defs, fuel)
    decreases fuel, value, 1
  {
    match value
    case Leaf(_) =>
    case Obj(fields) => MoreFuel(fields, defs, fuel, more);
    case Arr(items) => MoreFuelItems(items, defs, fuel, more);
  }

  lemma {:induction false} MoreFuelItems(items: seq<Json>, defs: Definitions, fuel: nat, more: nat)
    requires fuel <= more && ExpandItems(items, defs, fuel).Some?
    ensures ExpandItems(items, defs, more) == ExpandItems(items, defs, fuel)
    decreases fuel, items, 0
  {
    if items != [] {
      if items[0].Obj? {
        MoreFuelValue(items[0], defs, fuel, more);
      }
      MoreFuelItems(items[1..], defs, fuel, more);
    }
  }

  // ---------------------------------------------------------------------------------------------
  // A successful inlining is the substitution.

  lemma {:induction false} InlineExpands(fields: seq<Field>, defs: Definitions, seen: seq<string>)
    ensures Inline(fields, defs, seen).Ok? ==>
              Expand(fields, defs, Unseen(defs, seen)) == Some(Inline(fields, defs, seen).value)
    decreases Unseen(defs, seen), fields, 1
  {
    if !HasRef(fields) {
      InlineFieldsExpands(fields, defs, seen);
    } else {
      var name := RefName(fields);
      if name !in seen && name in defs {
        SeeingOneMore(defs, seen, name);
        InlineExpands(defs[name], defs, seen + [name]);
        if Inline(defs[name], defs, seen + [name]).Ok? {
          MoreFuel(defs[name], defs, Unseen(defs, seen + [name]), Unseen(defs, seen) - 1);
        }
      }
    }
  }

  lemma {:induction false} InlineFieldsExpands(fields: seq<Field>, defs: Definitions, seen: seq<string>)
    ensures InlineFields(fields, defs, seen).Ok? ==>
              ExpandFields(fields, defs, Unseen(defs, seen)) == Some(InlineFields(fields, defs, seen).value)
    decreases Unseen(defs, seen), fields, 0
  {
    if fields != [] {
      InlineValueExpands(fields[0].value, defs, seen);
      InlineFieldsExpands(fields[1..], defs, seen);
    }
  }

  lemma {:induction false} InlineValueExpands(value: Json, defs: Definitions, seen: seq<string>)
    ensures InlineValue(value, defs, seen).Ok? ==>
              ExpandValue(value, defs, Unseen(defs, seen)) == Some(InlineValue(value, defs, seen).value)
    decreases Unseen(defs, seen), value, 1
  {
    match value
    case Leaf(_) =>
    case Obj(fields) => InlineExpands(fields, defs, seen);
    case Arr(items) => InlineItemsExpands(items, defs, seen);
  }

  lemma {:induction false} InlineItemsExpands(items: seq<Json>, defs: Definitions, seen: seq<string>)
    ensures InlineItems(items, defs, seen).Ok? ==>
              ExpandItems(items, defs, Unseen(defs, seen)) == Some(InlineItems(items, defs, seen).value)
    decreases Unseen(defs, seen), items, 0
  {
    if items != [] {
      if items[0].Obj? {
        InlineExpands(items[0].fields, defs, seen);
      }
      InlineItemsExpands(items[1..], defs, seen);
    }
  }

  // ---------------------------------------------------------------------------------------------
  // Whatever substitutes in finitely many steps is inlined.

  /** The definitions being expanded all need more than this much fuel. */
  ghost predicate Deeper(defs: Definitions, seen: seq<string>, fuel: nat) {
    forall name :: name in seen ==> name in defs && (fuel == 0 || Expand(defs[name], defs, fuel - 1).None?)
  }

  /** The least fuel that expands an object. */
  ghost function LeastFuel(fields: seq<Field>, defs: Definitions, fuel: nat): (least: nat)
    requires Expand(fields, defs, fuel).Some?
    ensures least <= fuel && Expand(fields, defs, least).Some?
    ensures least == 0 || Expand(fields, defs, least - 1).None?
  {
    if fuel == 0 || Expand(fields, defs, fuel - 1).None? then fuel else LeastFuel(fields, defs, fuel - 1)
  }

  lemma LessFuelStaysDeeper(defs: Definitions, seen: seq<string>, fuel: nat, less: nat)
    requires Deeper(defs, seen, fuel) && less <= fuel
    ensures Deeper(defs, seen, less)
  {
    forall name | name in seen
      ensures name in defs && (less == 0 || Expand(defs[name], defs, less - 1).None?)
    {
      if less > 0 && Expand(defs[name], defs, less - 1).Some? {
        MoreFuel(defs[name], defs, less - 1, fuel - 1);
      }
    }
  }

  lemma {:induction false} ExpandInlines(fields: seq<Field>, defs: Definitions, seen: seq<string>, fuel: nat)
    requires Expand(fields, defs, fuel).Some? && Deeper(defs, seen, fuel)
    ensures Inline(fields, defs, seen) == Ok(Expand(fields, defs, fuel).value)
    decreases fuel, fields, 1
  {
    if !HasRef(fields) {
      ExpandFieldsInlines(fields, defs, seen, fuel);
    } else {
      var name := RefName(fields);
      var least := LeastFuel(defs[name], defs, fuel - 1);
      LessFuelStaysDeeper(defs, seen, fuel, least);
      MoreFuel(defs[name], defs, least, fuel - 1);
      ExpandInlines(defs[name], defs, seen + [name], least);
    }
  }

  lemma {:induction false} ExpandFieldsInlines(fields: seq<Field>, defs: Definitions, seen: seq<string>, fuel: nat)
    requires ExpandFields(fields, defs, fuel).Some? && Deeper(defs, seen, fuel)
    ensures InlineFields(fields, defs, seen) == Ok(ExpandFields(fields, defs, fuel).value)
    decreases fuel, fields, 0
  {
    if fields != [] {
      ExpandValueInlines(fields[0].value, defs, seen, fuel);
      ExpandFieldsInlines(fields[1..], defs, seen, fuel);
    }
  }

  lemma {:induction false} ExpandValueInlines(value: Json, defs: Definitions, seen: seq<string>, fuel: nat)
    requires ExpandValue(value, defs, fuel).Some? && Deeper(defs, seen, fuel)
    ensures InlineValue(value, defs, seen) == Ok(ExpandValue(value, defs, fuel).value)
    decreases fuel, value, 1
  {
    match value
    case Leaf(_) =>
    case Obj(fields) => ExpandInlines(fields, defs, seen, fuel);
    case Arr(items) => ExpandItemsInlines(items, defs, seen, fuel);
  }

  lemma {:induction false} ExpandItemsInlines(items: seq<Json>, defs: Definitions, seen: seq<string>, fuel: nat)
    requires ExpandItems(items, defs, fuel).Some? && Deeper(defs, seen, fuel)
    ensures InlineItems(items, defs, seen) == Ok(ExpandItems(items, defs, fuel).value)
    decreases fuel, items, 0
  {
    if items != [] {
      if items[0].Obj? {
        ExpandInlines(items[0].fields, defs, seen, fuel);
      }
      ExpandItemsInlines(items[1..], defs, seen, fuel);
    }
  }

  /** A schema is inlined exactly when finitely many substitutions resolve it, and to their result. */
  lemma InlineIsSubstitution(fields: seq<Field>, defs: Definitions)
    ensures Inline(fields, defs, []).Ok? <==> exists fuel: nat :: Expand(fields, defs, fuel).Some?
    ensures forall fuel: nat :: Expand(fields, defs, fuel).Some? ==>
              Inline(fields, defs, []) == Ok(Expand(fields, defs, fuel).value)
  {
    InlineExpands(fields, defs, []);
    forall fuel: nat | Expand(fields, defs, fuel).Some?
      ensures Inline(fields, defs, []) == Ok(Expand(fields, defs, fuel).value)
    {
      ExpandInlines(fields, defs, [], fuel);
    }
  }

  /** What was being inlined around a schema can only make it fail, never change its result. */
  lemma SeenChangesNothing(fields: seq<Field>, defs: Definitions, seen: seq<string>)
    ensures Inline(fields, defs, seen).Ok? ==> Inline(fields, defs, []) == Inline(fields, defs, seen)
  {
    InlineExpands(fields, defs, seen);
    if Inline(fields, defs, seen).Ok? {
      ExpandInlines(fields, defs, [], Unseen(defs, seen));
    }
  }

  // ---------------------------------------------------------------------------------------------
  // Why inlining fails: the names it reports really lead from one definition to the next.

  /** The object refers to this definition, directly or through what it holds. */
  predicate Mentions(fields: seq<Field>, name: string)
    decreases fields
  {
    if HasRef(fields) then RefName(fields) == name
    else exists i :: 0 <= i < |fields| && MentionsValue(fields[i].value, name)
  }

  predicate MentionsValue(value: Json, name: string)
    decreases value
  {
    match value
    case Leaf(_) => false
    case Obj(fields) => Mentions(fields, name)
    case Arr(items) => exists i :: 0 <= i < |items| && items[i].Obj? && Mentions(items[i].fields, name)
  }

  /** Each name is mentioned by the definition of the one before it, the first by the object itself. */
  predicate Leads(fields: seq<Field>, defs: Definitions, names: seq<string>)
    decreases |names|
  {
    && names != [] && Mentions(fields, names[0])
    && (|names| > 1 ==> names[0] in defs && Leads(defs[names[0]], defs, names[1..]))
  }

  /** What an inlining that failed with these names, after those already seen, has found. */
  predicate Cycle(defs: Definitions, seen: seq<string>, names: seq<string>) {
    && |seen| < |names| && names[..|seen|] == seen && names[|names| - 1] in names[..|names| - 1]
    && (|names| > |seen| + 1 ==> names[|seen|] in defs && Leads(defs[names[|seen|]], defs, names[|seen| + 1..]))
  }

  lemma CycleGrows(defs: Definitions, seen: seq<string>, name: string, names: seq<string>)
    requires name in defs && Cycle(defs, seen + [name], names) && Mentions(defs[name], names[|seen| + 1])
    ensures Cycle(defs, seen, names) && names[|seen|] == name
  {
    assert names[..|seen|] == names[..|seen| + 1][..|seen|];
    assert names[|seen|] == names[..|seen| + 1][|seen|];
    assert names[|seen| + 1..][1..] == names[|seen| + 2..];
  }

  lemma {:induction false} CycleIsReal(fields: seq<Field>, defs: Definitions, seen: seq<string>)
    ensures var r := Inline(fields, defs, seen);
      r.Recursive? ==> Cycle(defs, seen, r.names) && Mentions(fields, r.names[|seen|])
    decreases Unseen(defs, seen), fields, 1
  {
    if !HasRef(fields) {
      CycleInFields(fields, defs, seen);
    } else {
      var name := RefName(fields);
      if name !in seen && name in defs {
        SeeingOneMore(defs, seen, name);
        CycleIsReal(defs[name], defs, seen + [name]);
        if Inline(fields, defs, seen).Recursive? {
          CycleGrows(defs, seen, name, Inline(fields, defs, seen).names);
        }
      }
    }
  }

  lemma {:induction false} CycleInFields(fields: seq<Field>, defs: Definitions, seen: seq<string>)
    ensures var r := InlineFields(fields, defs, seen);
      r.Recursive? ==> (Cycle(defs, seen, r.names) &&
                        exists i :: 0 <= i < |fields| && MentionsValue(fields[i].value, r.names[|seen|]))
    decreases Unseen(defs, seen), fields, 0
  {
    if fields != [] {
      CycleInValue(fields[0].value, defs, seen);
      CycleInFields(fields[1..], defs, seen);
      var r := InlineFields(fields, defs, seen);
      if r.Recursive? && InlineValue(fields[0].value, defs, seen).Ok? {
        var i :| 0 <= i < |fields[1..]| && MentionsValue(fields[1..][i].value, r.names[|seen|]);
        assert fields[i + 1] == fields[1..][i];
      }
    }
  }

  lemma {:induction false} CycleInValue(value: Json, defs: Definitions, seen: seq<string>)
    ensures var r := InlineValue(value, defs, seen);
      r.Recursive? ==> Cycle(defs, seen, r.names) && MentionsValue(value, r.names[|seen|])
    decreases Unseen(defs, seen), value, 1
  {
    match value
    case Leaf(_) =>
    case Obj(fields) => CycleIsReal(fields, defs, seen);
    case Arr(items) => CycleInItems(items, defs, seen);
  }

  lemma {:induction false} CycleInItems(items: seq<Json>, defs: Definitions, seen: seq<string>)
    ensures var r := InlineItems(items, defs, seen);
      r.Recursive? ==> (Cycle(defs, seen, r.names) &&
                        exists i :: 0 <= i < |items| && items[i].Obj? && Mentions(items[i].fields, r.names[|seen|]))
    decreases Unseen(defs, seen), items, 0
  {
    if items != [] {
      if items[0].Obj? {
        CycleIsReal(items[0].fields, defs, seen);
      }
      CycleInItems(items[1..], defs, seen);
      var r := InlineItems(items, defs, seen);
      if r.Recursive? && InlineItem(items[0], defs, seen).Ok? {
        var i :| 0 <= i < |items[1..]| && items[1..][i].Obj? && Mentions(items[1..][i].fields, r.names[|seen|]);
        assert items[i + 1] == items[1..][i];
      }
    }
  }

  /** A schema is refused as recursive only over a true cycle of definitions it leads into. */
  lemma RecursiveMeansCycle(fields: seq<Field>, defs: Definitions)
    requires Inline(fields, defs, []).Recursive?
    ensures var names := Inline(fields, defs, []).names;
      Leads(fields, defs, names) && names[|names| - 1] in names[..|names| - 1]
  {
    CycleIsReal(fields, defs, []);
    var names := Inline(fields, defs, []).names;
    assert names[0..] == names;
  }

  /** The names lead on from a definition the first of them names. */
  predicate Onward(defs: Definitions, names: seq<string>) {
    && names != []
    && (|names| > 1 ==> names[0] in defs && Leads(defs[names[0]], defs, names[1..]))
  }

  /** An inlining that misses a definition has been led to its name, and it is not there. */
  lemma {:induction false} MissingIsReached(fields: seq<Field>, defs: Definitions, seen: seq<string>)
    returns (names: seq<string>)
    requires Inline(fields, defs, seen).Missing?
    ensures Leads(fields, defs, names)
    ensures names[|names| - 1] == Inline(fields, defs, seen).name && Inline(fields, defs, seen).name !in defs
    decreases Unseen(defs, seen), fields, 1
  {
    if !HasRef(fields) {
      names := MissingInFields(fields, defs, seen);
    } else {
      var name := RefName(fields);
      if name !in defs {
        names := [name];
      } else {
        SeeingOneMore(defs, seen, name);
        var rest := MissingIsReached(defs[name], defs, seen + [name]);
        names := [name] + rest;
        assert names[1..] == rest;
      }
    }
  }

  lemma {:induction false} MissingInFields(fields: seq<Field>, defs: Definitions, seen: seq<string>)
    returns (names: seq<string>)
    requires InlineFields(fields, defs, seen).Missing?
    ensures Onward(defs, names) && exists i :: 0 <= i < |fields| && MentionsValue(fields[i].value, names[0])
    ensures names[|names| - 1] == InlineFields(fields, defs, seen).name && InlineFields(fields, defs, seen).name !in defs
    decreases Unseen(defs, seen), fields, 0
  {
    if InlineValue(fields[0].value, defs, seen).Missing? {
      names := MissingInValue(fields[0].value, defs, seen);
    } else {
      names := MissingInFields(fields[1..], defs, seen);
      var i :| 0 <= i < |fields[1..]| && MentionsValue(fields[1..][i].value, names[0]);
      assert fields[i + 1] == fields[1..][i];
    }
  }

  lemma {:induction false} MissingInValue(value: Json, defs: Definitions, seen: seq<string>)
    returns (names: seq<string>)
    requires InlineValue(value, defs, seen).Missing?
    ensures Onward(defs, names) && MentionsValue(value, names[0])
    ensures names[|names| - 1] == InlineValue(value, defs, seen).name && InlineValue(value, defs, seen).name !in defs
    decreases Unseen(defs, seen), value, 1
  {
    match value
    case Leaf(_) =>
    case Obj(fields) => names := MissingIsReached(fields, defs, seen);
    case Arr(items) => names := MissingInItems(items, defs, seen);
  }

  lemma {:induction false} MissingInItems(items: seq<Json>, defs: Definitions, seen: seq<string>)
    returns (names: seq<string>)
    requires InlineItems(items, defs, seen).Missing?
    ensures Onward(defs, names)
    ensures exists i :: 0 <= i < |items| && items[i].Obj? && Mentions(items[i].fields, names[0])
    ensures names[|names| - 1] == InlineItems(items, defs, seen).name && InlineItems(items, defs, seen).name !in defs
    decreases Unseen(defs, seen), items, 0
  {
    if InlineItem(items[0], defs, seen).Missing? {
      names := MissingIsReached(items[0].fields, defs, seen);
    } else {
      names := MissingInItems(items[1..], defs, seen);
      var i :| 0 <= i < |items[1..]| && items[1..][i].Obj? && Mentions(items[1..][i].fields, names[0]);
      assert items[i + 1] == items[1..][i];
    }
  }

  // ---------------------------------------------------------------------------------------------
  // When inlining succeeds: nowhere it leads is a cycle or a name without a definition.

  /** What an expanded object mentions is defined, and expands with less fuel. */
  lemma {:induction false} MentionExpands(fields: seq<Field>, defs: Definitions, fuel: nat, name: string)
    requires Expand(fields, defs, fuel).Some? && Mentions(fields, name)
    ensures fuel > 0 && name in defs && Expand(defs[name], defs, fuel - 1).Some?
    decreases fields, 1
  {
    if !HasRef(fields) {
      var i :| 0 <= i < |fields| && MentionsValue(fields[i].value, name);
      FieldExpands(fields, defs, fuel, i);
      MentionInValueExpands(fields[i].value, defs, fuel, name);
    }
  }

  lemma {:induction false} FieldExpands(fields: seq<Field>, defs: Definitions, fuel: nat, i: nat)
    requires ExpandFields(fields, defs, fuel).Some? && i < |fields|
    ensures ExpandValue(fields[i].value, defs, fuel).Some?
  {
    if i > 0 {
      FieldExpands(fields[1..], defs, fuel, i - 1);
    }
  }

  lemma {:induction false} MentionInValueExpands(value: Json, defs: Definitions, fuel: nat, name: string)
    requires ExpandValue(value, defs, fuel).Some? && MentionsValue(value, name)
    ensures fuel > 0 && name in defs && Expand(defs[name], defs, fuel - 1).Some?
    decreases value, 1
  {
    match value
    case Obj(fields) => MentionExpands(fields, defs, fuel, name);
    case Arr(items) =>
      var i :| 0 <= i < |items| && items[i].Obj? && Mentions(items[i].fields, name);
      ItemExpands(items, defs, fuel, i);
      MentionExpands(items[i].fields, defs, fuel, name);
    case Leaf(_) =>
  }

  lemma {:induction false} ItemExpands(items: seq<Json>, defs: Definitions, fuel: nat, i: nat)
    requires ExpandItems(items, defs, fuel).Some? && i < |items| && items[i].Obj?
    ensures Expand(items[i].fields, defs, fuel).Some?
  {
    if i > 0 {
      ItemExpands(items[1..], defs, fuel, i - 1);
    }
  }

  /** Wherever an expanded object leads is defined, and expands with less fuel still. */
  lemma {:induction false} LeadExpands(fields: seq<Field>, defs: Definitions, fuel: nat, names: seq<string>)
    requires Expand(fields, defs, fuel).Some? && Leads(fields, defs, names)
    ensures |names| <= fuel && names[|names| - 1] in defs
    ensures Expand(defs[names[|names| - 1]], defs, fuel - |names|).Some?
    decreases |names|
  {
    MentionExpands(fields, defs, fuel, names[0]);
    if |names| > 1 {
      LeadExpands(defs[names[0]], defs, fuel - 1, names[1..]);
    }
  }

  lemma {:induction false} LeadsOnFrom(fields: seq<Field>, defs: Definitions, names: seq<string>, i: nat)
    requires Leads(fields, defs, names) && i < |names| - 1
    ensures names[i] in defs && Leads(defs[names[i]], defs, names[i + 1..])
    decreases i
  {
    if i > 0 {
      LeadsOnFrom(defs[names[0]], defs, names[1..], i - 1);
      assert names[1..][i..] == names[i + 1..];
    }
  }

  /** A definition that leads back to itself expands with no amount of fuel. */
  lemma {:induction false} LoopNeverExpands(defs: Definitions, name: string, loop: seq<string>, fuel: nat)
    requires name in defs && Leads(defs[name], defs, loop) && loop[|loop| - 1] == name
    ensures Expand(defs[name], defs, fuel).None?
  {
    if Expand(defs[name], defs, fuel).Some? {
      LeadExpands(defs[name], defs, fuel, loop);
      LoopNeverExpands(defs, name, loop, fuel - |loop|);
    }
  }

  /** The last of these names is defined and was not met before on the way. */
  predicate Sane(defs: Definitions, names: seq<string>)
    requires names != []
  {
    names[|names| - 1] in defs && names[|names| - 1] !in names[..|names| - 1]
  }

  lemma ExpandedLeadIsSane(fields: seq<Field>, defs: Definitions, fuel: nat, names: seq<string>)
    requires Expand(fields, defs, fuel).Some? && Leads(fields, defs, names)
    ensures Sane(defs, names)
  {
    LeadExpands(fields, defs, fuel, names);
    var n := |names| - 1;
    if names[n] in names[..n] {
      var i :| 0 <= i < n && names[..n][i] == names[n];
      LeadsOnFrom(fields, defs, names, i);
      LoopNeverExpands(defs, names[n], names[i + 1..], fuel - |names|);
    }
  }

  /** A schema is inlined exactly when no chain of references it leads along comes back on itself or
      ends at a name without a definition. */
  lemma InlinesExactlyWhenSane(fields: seq<Field>, defs: Definitions)
    ensures Inline(fields, defs, []).Ok? <==> forall names :: Leads(fields, defs, names) ==> Sane(defs, names)
  {
    match Inline(fields, defs, [])
    case Ok(_) =>
      InlineExpands(fields, defs, []);
      forall names | Leads(fields, defs, names)
        ensures Sane(defs, names)
      {
        ExpandedLeadIsSane(fields, defs, Unseen(defs, []), names);
      }
    case Recursive(names) =>
      RecursiveMeansCycle(fields, defs);
      assert !Sane(defs, names);
    case Missing(_) =>
      var names := MissingIsReached(fields, defs, []);
      assert !Sane(defs, names);
  }

  /** The missing name reported is one the schema leads to, and has no definition. */
  lemma MissingMeansUndefined(fields: seq<Field>, defs: Definitions)
    requires Inline(fields, defs, []).Missing?
    ensures Inline(fields, defs, []).name !in defs
    ensures exists names :: Leads(fields, defs, names) && names[|names| - 1] == Inline(fields, defs, []).name
  {
    var names := MissingIsReached(fields, defs, []);
  }
}
