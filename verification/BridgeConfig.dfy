/** A bridge's JSON configuration on its way from the setup draft to the stored
    configuration: two independent checks that clone it. */
module BridgeConfigs {
  import opened Wrappers

  /** A value as the checks see it; `plain` says that an object has the ordinary prototype
      or none, `Finite` and `Foreign` stand for numbers and for what JSON cannot hold. */
  datatype Json =
    | Null
    | Boolean(value: bool)
    | Finite(number: int)
    | Text(text: string)
    | List(items: seq<Json>)
    | Object(plain: bool, fields: seq<Field>)
    | Foreign

  datatype Field = Field(key: string, child: Json)

  const MAX_DEPTH := 12
  const MAX_FIELDS := 256
  const MAX_ITEMS := 1_000

  predicate KeyFits(k: string) {
    0 < |k| <= 128
  }

  const PROTOTYPE := "__proto__"

  /** Assigning a field to a plain output object. Under one key the assignment goes to the
      object's prototype, so that no field of that name is there, nor in what is stored. */
  function Assigned(key: string, child: Json, rest: seq<Field>): seq<Field> {
    if key == PROTOTYPE then rest else [Field(key, child)] + rest
  }

  // -------------------------------------------------------------------------
  // The setup draft's check
  // -------------------------------------------------------------------------

  function DraftObject(fields: seq<Field>, depth: nat, secret: string -> bool): Option<seq<Field>>
    decreases fields, 1
  {
    if depth > MAX_DEPTH || |fields| > MAX_FIELDS then None else DraftFields(fields, depth, secret)
  }

  function DraftFields(fields: seq<Field>, depth: nat, secret: string -> bool): Option<seq<Field>>
    decreases fields, 0
  {
    if fields == [] then Some([])
    else
      var f := fields[0];
      if !KeyFits(f.key) || secret(f.key) then None
      else
        var child := DraftValue(f.child, depth + 1, secret);
        var rest := DraftFields(fields[1..], depth, secret);
        if child.Some? && rest.Some? then Some(Assigned(f.key, child.value, rest.value)) else None
  }

  function DraftValue(v: Json, depth: nat, secret: string -> bool): Option<Json>
    decreases v, 2
  {
    match v
    case Null => Some(v)
    case Boolean(_) => Some(v)
    case Finite(_) => Some(v)
    case Text(_) => Some(v)
    case List(items) =>
      if |items| > MAX_ITEMS || depth > MAX_DEPTH then None
      else
        var r := DraftItems(items, depth, secret);
        if r.Some? then Some(List(r.value)) else None
    case Object(plain, fields) =>
      if !plain then None
      else
        var r := DraftObject(fields, depth, secret);
        if r.Some? then Some(Object(true, r.value)) else None
    case Foreign => None
  }

  function DraftItems(items: seq<Json>, depth: nat, secret: string -> bool): Option<seq<Json>>
    decreases items, 0
  {
    if items == [] then Some([])
    else
      var first := DraftValue(items[0], depth + 1, secret);
      var rest := DraftItems(items[1..], depth, secret);
      if first.Some? && rest.Some? then Some([first.value] + rest.value) else None
  }

  // -------------------------------------------------------------------------
  // The configuration store's two passes
  // -------------------------------------------------------------------------

  /** Whether the secret-field pass refuses: it looks into objects, and into the objects
      that stand directly in an array. */
  predicate Rejects(fields: seq<Field>, secret: string -> bool)
    decreases fields
  {
    fields != [] &&
    ( || secret(fields[0].key)
      || (fields[0].child.Object? && Rejects(fields[0].child.fields, secret))
      || (fields[0].child.List? && RejectsItems(fields[0].child.items, secret))
      || Rejects(fields[1..], secret))
  }

  predicate RejectsItems(items: seq<Json>, secret: string -> bool)
    decreases items
  {
    items != [] && ((items[0].Object? && Rejects(items[0].fields, secret)) || RejectsItems(items[1..], secret))
  }

  function CloneObject(plain: bool, fields: seq<Field>, depth: nat): Option<seq<Field>>
    decreases fields, 1
  {
    if depth > MAX_DEPTH || |fields| > MAX_FIELDS || !plain then None else CloneFields(fields, depth)
  }

  function CloneFields(fields: seq<Field>, depth: nat): Option<seq<Field>>
    decreases fields, 0
  {
    if fields == [] then Some([])
    else if !KeyFits(fields[0].key) then None
    else
      var child := CloneValue(fields[0].child, depth + 1);
      var rest := CloneFields(fields[1..], depth);
      if child.Some? && rest.Some? then Some(Assigned(fields[0].key, child.value, rest.value)) else None
  }

  function CloneValue(v: Json, depth: nat): Option<Json>
    decreases v, 2
  {
    match v
    case Null => Some(v)
    case Boolean(_) => Some(v)
    case Finite(_) => Some(v)
    case Text(_) => Some(v)
    case List(items) =>
      if |items| > MAX_ITEMS || depth > MAX_DEPTH then None
      else
        var r := CloneItems(items, depth);
        if r.Some? then Some(List(r.value)) else None
    case Object(plain, fields) =>
      var r := CloneObject(plain, fields, depth);
      if r.Some? then Some(Object(true, r.value)) else None
    case Foreign => None
  }

  function CloneItems(items: seq<Json>, depth: nat): Option<seq<Json>>
    decreases items, 0
  {
    if items == [] then Some([])
    else
      var first := CloneValue(items[0], depth + 1);
      var rest := CloneItems(items[1..], depth);
      if first.Some? && rest.Some? then Some([first.value] + rest.value) else None
  }

  // -------------------------------------------------------------------------
  // How the two compare
  // -------------------------------------------------------------------------

  /** Whether a secret-shaped key stands anywhere in the tree. */
  predicate Secretive(v: Json, secret: string -> bool)
    decreases v, 1
  {
    match v
    case List(items) => AnySecretive(items, secret)
    case Object(_, fields) => SecretFields(fields, secret)
    case _ => false
  }

  predicate AnySecretive(items: seq<Json>, secret: string -> bool)
    decreases items, 0
  {
    items != [] && (Secretive(items[0], secret) || AnySecretive(items[1..], secret))
  }

  predicate SecretFields(fields: seq<Field>, secret: string -> bool)
    decreases fields, 0
  {
    fields != [] && (secret(fields[0].key) || Secretive(fields[0].child, secret) || SecretFields(fields[1..], secret))
  }

  /** The tree without the fields that an assignment loses. */
  function Stripped(v: Json): Json
    decreases v, 1
  {
    match v
    case List(items) => List(StrippedItems(items))
    case Object(plain, fields) => Object(plain, StrippedFields(fields))
    case _ => v
  }

  function StrippedItems(items: seq<Json>): seq<Json>
    decreases items, 0
  {
    if items == [] then [] else [Stripped(items[0])] + StrippedItems(items[1..])
  }

  function StrippedFields(fields: seq<Field>): (r: seq<Field>)
    ensures |r| <= |fields|
    decreases fields, 0
  {
    if fields == [] then [] else Assigned(fields[0].key, Stripped(fields[0].child), StrippedFields(fields[1..]))
  }

  /** Whether that key stands anywhere in the tree. */
  predicate HasPrototype(v: Json)
    decreases v, 1
  {
    match v
    case List(items) => AnyPrototype(items)
    case Object(_, fields) => PrototypeFields(fields)
    case _ => false
  }

  predicate AnyPrototype(items: seq<Json>)
    decreases items, 0
  {
    items != [] && (HasPrototype(items[0]) || AnyPrototype(items[1..]))
  }

  predicate PrototypeFields(fields: seq<Field>)
    decreases fields, 0
  {
    fields != [] && (fields[0].key == PROTOTYPE || HasPrototype(fields[0].child) || PrototypeFields(fields[1..]))
  }

  /** A tree is given back unchanged exactly when that key stands nowhere in it. */
  lemma {:induction false} StrippedExactly(v: Json)
    ensures Stripped(v) == v <==> !HasPrototype(v)
    decreases v, 2
  {
    match v
    case List(items) => StrippedItemsExactly(items);
    case Object(_, fields) => StrippedFieldsExactly(fields);
    case _ =>
  }

  lemma {:induction false} StrippedItemsExactly(items: seq<Json>)
    ensures StrippedItems(items) == items <==> !AnyPrototype(items)
    decreases items, 0
  {
    if items != [] {
      StrippedExactly(items[0]);
      StrippedItemsExactly(items[1..]);
      assert items == [items[0]] + items[1..];
      var r := StrippedItems(items);
      assert r[0] == Stripped(items[0]) && r[1..] == StrippedItems(items[1..]);
    }
  }

  lemma {:induction false} StrippedFieldsExactly(fields: seq<Field>)
    ensures StrippedFields(fields) == fields <==> !PrototypeFields(fields)
    decreases fields, 0
  {
    if fields != [] {
      StrippedExactly(fields[0].child);
      StrippedFieldsExactly(fields[1..]);
      assert fields == [fields[0]] + fields[1..];
      var r := StrippedFields(fields);
      if fields[0].key == PROTOTYPE {
        assert |r| < |fields|;
      } else {
        assert r[0] == Field(fields[0].key, Stripped(fields[0].child)) && r[1..] == StrippedFields(fields[1..]);
      }
    }
  }

  /** Nothing more is lost the second time. */
  lemma {:induction false} StrippedHasNone(v: Json)
    ensures !HasPrototype(Stripped(v))
    decreases v, 2
  {
    match v
    case List(items) => StrippedItemsHaveNone(items);
    case Object(_, fields) => StrippedFieldsHaveNone(fields);
    case _ =>
  }

  lemma {:induction false} StrippedItemsHaveNone(items: seq<Json>)
    ensures !AnyPrototype(StrippedItems(items))
    decreases items, 0
  {
    if items != [] {
      StrippedHasNone(items[0]);
      StrippedItemsHaveNone(items[1..]);
      assert StrippedItems(items)[1..] == StrippedItems(items[1..]);
    }
  }

  lemma {:induction false} StrippedFieldsHaveNone(fields: seq<Field>)
    ensures !PrototypeFields(StrippedFields(fields))
    decreases fields, 0
  {
    if fields != [] {
      StrippedHasNone(fields[0].child);
      StrippedFieldsHaveNone(fields[1..]);
      if fields[0].key != PROTOTYPE {
        assert StrippedFields(fields)[1..] == StrippedFields(fields[1..]);
      }
    }
  }

  /** The draft accepts exactly what the store's clone accepts and no secret-shaped key
      spoils, at whatever depth; and both give back the value they were given, without
      the fields that an assignment loses. */
  lemma {:induction false} ValueAgrees(v: Json, depth: nat, secret: string -> bool)
    ensures DraftValue(v, depth, secret).Some? <==> CloneValue(v, depth).Some? && !Secretive(v, secret)
    ensures CloneValue(v, depth).Some? ==> CloneValue(v, depth).value == Stripped(v)
    ensures DraftValue(v, depth, secret).Some? ==> DraftValue(v, depth, secret).value == Stripped(v)
    decreases v, 2
  {
    match v
    case List(items) => ItemsAgree(items, depth, secret);
    case Object(_, fields) => FieldsAgree(fields, depth, secret);
    case _ =>
  }

  lemma {:induction false} ItemsAgree(items: seq<Json>, depth: nat, secret: string -> bool)
    ensures DraftItems(items, depth, secret).Some? <==> CloneItems(items, depth).Some? && !AnySecretive(items, secret)
    ensures CloneItems(items, depth).Some? ==> CloneItems(items, depth).value == StrippedItems(items)
    ensures DraftItems(items, depth, secret).Some? ==> DraftItems(items, depth, secret).value == StrippedItems(items)
    decreases items, 0
  {
    if items != [] {
      ValueAgrees(items[0], depth + 1, secret);
      ItemsAgree(items[1..], depth, secret);
    }
  }

  lemma {:induction false} FieldsAgree(fields: seq<Field>, depth: nat, secret: string -> bool)
    ensures DraftFields(fields, depth, secret).Some? <==>
            CloneFields(fields, depth).Some? && !SecretFields(fields, secret)
    ensures CloneFields(fields, depth).Some? ==> CloneFields(fields, depth).value == StrippedFields(fields)
    ensures DraftFields(fields, depth, secret).Some? ==>
            DraftFields(fields, depth, secret).value == StrippedFields(fields)
    decreases fields, 0
  {
    if fields != [] {
      ValueAgrees(fields[0].child, depth + 1, secret);
      FieldsAgree(fields[1..], depth, secret);
    }
  }

  /** What was accepted once is accepted again. */
  lemma {:induction false} StrippedIsAccepted(v: Json, depth: nat, secret: string -> bool)
    requires DraftValue(v, depth, secret).Some?
    ensures DraftValue(Stripped(v), depth, secret).Some?
    decreases v, 2
  {
    match v
    case List(items) => StrippedItemsAccepted(items, depth, secret);
    case Object(_, fields) => StrippedFieldsAccepted(fields, depth, secret);
    case _ =>
  }

  lemma {:induction false} StrippedItemsAccepted(items: seq<Json>, depth: nat, secret: string -> bool)
    requires DraftItems(items, depth, secret).Some?
    ensures DraftItems(StrippedItems(items), depth, secret).Some? && |StrippedItems(items)| == |items|
    decreases items, 0
  {
    if items != [] {
      StrippedIsAccepted(items[0], depth + 1, secret);
      StrippedItemsAccepted(items[1..], depth, secret);
      assert StrippedItems(items)[1..] == StrippedItems(items[1..]);
    }
  }

  lemma {:induction false} StrippedFieldsAccepted(fields: seq<Field>, depth: nat, secret: string -> bool)
    requires DraftFields(fields, depth, secret).Some?
    ensures DraftFields(StrippedFields(fields), depth, secret).Some?
    decreases fields, 0
  {
    if fields != [] {
      StrippedIsAccepted(fields[0].child, depth + 1, secret);
      StrippedFieldsAccepted(fields[1..], depth, secret);
      if fields[0].key != PROTOTYPE {
        assert StrippedFields(fields)[1..] == StrippedFields(fields[1..]);
      }
    }
  }

  // What each pass refuses

  /** One step into an object, or into an object that stands directly in an array. */
  datatype Hop = Into(field: nat) | IntoItem(field: nat, item: nat)

  /** The fields that a trail leads to, if there are any. */
  function Reached(fields: seq<Field>, trail: seq<Hop>): Option<seq<Field>>
    decreases |trail|
  {
    if trail == [] then Some(fields)
    else if trail[0].field >= |fields| then None
    else
      var child := fields[trail[0].field].child;
      match trail[0]
      case Into(_) => if child.Object? then Reached(child.fields, trail[1..]) else None
      case IntoItem(_, i) =>
        if child.List? && i < |child.items| && child.items[i].Object? then Reached(child.items[i].fields, trail[1..])
        else None
  }

  ghost predicate Exposes(fields: seq<Field>, secret: string -> bool, trail: seq<Hop>) {
    var r := Reached(fields, trail);
    r.Some? && exists k :: 0 <= k < |r.value| && secret(r.value[k].key)
  }

  /** A field for which the pass refuses. */
  predicate Refuses(f: Field, secret: string -> bool) {
    || secret(f.key)
    || (f.child.Object? && Rejects(f.child.fields, secret))
    || (f.child.List? && RejectsItems(f.child.items, secret))
  }

  lemma {:induction false} SomeFieldRefuses(fields: seq<Field>, secret: string -> bool)
    ensures Rejects(fields, secret) <==> exists j :: 0 <= j < |fields| && Refuses(fields[j], secret)
    decreases |fields|
  {
    if fields != [] {
      SomeFieldRefuses(fields[1..], secret);
      if j :| 0 <= j < |fields| && Refuses(fields[j], secret) {
        assert j > 0 ==> fields[1..][j - 1] == fields[j];
      }
      if j :| 0 <= j < |fields[1..]| && Refuses(fields[1..][j], secret) {
        assert fields[j + 1] == fields[1..][j];
      }
    }
  }

  lemma {:induction false} SomeItemRefuses(items: seq<Json>, secret: string -> bool)
    ensures RejectsItems(items, secret) <==>
            exists i :: 0 <= i < |items| && items[i].Object? && Rejects(items[i].fields, secret)
    decreases |items|
  {
    if items != [] {
      SomeItemRefuses(items[1..], secret);
      if i :| 0 <= i < |items| && items[i].Object? && Rejects(items[i].fields, secret) {
        assert i > 0 ==> items[1..][i - 1] == items[i];
      }
      if i :| 0 <= i < |items[1..]| && items[1..][i].Object? && Rejects(items[1..][i].fields, secret) {
        assert items[i + 1] == items[1..][i];
      }
    }
  }

  lemma {:induction false} ExposedIsRejected(fields: seq<Field>, secret: string -> bool, trail: seq<Hop>)
    requires Exposes(fields, secret, trail)
    ensures Rejects(fields, secret)
    decreases |trail|
  {
    SomeFieldRefuses(fields, secret);
    if trail == [] {
      var k :| 0 <= k < |fields| && secret(fields[k].key);
      assert Refuses(fields[k], secret);
    } else {
      var f := fields[trail[0].field];
      if trail[0].Into? {
        ExposedIsRejected(f.child.fields, secret, trail[1..]);
      } else {
        ExposedIsRejected(f.child.items[trail[0].item].fields, secret, trail[1..]);
        SomeItemRefuses(f.child.items, secret);
      }
      assert Refuses(f, secret);
    }
  }

  lemma Follows(fields: seq<Field>, hop: Hop, rest: seq<Hop>, inner: seq<Field>, secret: string -> bool)
    requires Exposes(inner, secret, rest) && Reached(fields, [hop]) == Some(inner)
    ensures Exposes(fields, secret, [hop] + rest)
  {
    assert ([hop] + rest)[1..] == rest && [hop][1..] == [];
  }

  lemma {:induction false} RejectedIsExposed(fields: seq<Field>, secret: string -> bool) returns (trail: seq<Hop>)
    requires Rejects(fields, secret)
    ensures Exposes(fields, secret, trail)
    decreases fields
  {
    SomeFieldRefuses(fields, secret);
    var j :| 0 <= j < |fields| && Refuses(fields[j], secret);
    var child := fields[j].child;
    trail := [];
    if secret(fields[j].key) {
      assert Reached(fields, []) == Some(fields);
    } else if child.Object? {
      var rest := RejectedIsExposed(child.fields, secret);
      assert [Into(j)][1..] == [];
      Follows(fields, Into(j), rest, child.fields, secret);
      trail := [Into(j)] + rest;
    } else {
      SomeItemRefuses(child.items, secret);
      var i :| 0 <= i < |child.items| && child.items[i].Object? && Rejects(child.items[i].fields, secret);
      var rest := RejectedIsExposed(child.items[i].fields, secret);
      assert [IntoItem(j, i)][1..] == [];
      Follows(fields, IntoItem(j, i), rest, child.items[i].fields, secret);
      trail := [IntoItem(j, i)] + rest;
    }
  }

  /** The secret-field pass refuses exactly the configurations in which some trail of objects,
      each standing in a field or directly in an array in a field, leads to a secret-shaped
      key. */
  lemma RejectsExactly(fields: seq<Field>, secret: string -> bool)
    ensures Rejects(fields, secret) <==> exists trail :: Exposes(fields, secret, trail)
  {
    if Rejects(fields, secret) {
      var trail := RejectedIsExposed(fields, secret);
    }
    if trail :| Exposes(fields, secret, trail) {
      ExposedIsRejected(fields, secret, trail);
    }
  }

  /** How deep objects and arrays are nested. */
  function Height(v: Json): nat
    decreases v, 1
  {
    match v
    case List(items) => 1 + ItemsHeight(items)
    case Object(_, fields) => 1 + FieldsHeight(fields)
    case _ => 0
  }

  function ItemsHeight(items: seq<Json>): nat
    decreases items, 0
  {
    if items == [] then 0
    else
      var first, rest := Height(items[0]), ItemsHeight(items[1..]);
      if first > rest then first else rest
  }

  function FieldsHeight(fields: seq<Field>): nat
    decreases fields, 0
  {
    if fields == [] then 0
    else
      var first, rest := Height(fields[0].child), FieldsHeight(fields[1..]);
      if first > rest then first else rest
  }

  /** Nothing in the tree is too wide, foreign, named too long or of another prototype. */
  predicate Moderate(v: Json)
    decreases v, 1
  {
    match v
    case List(items) => |items| <= 1_000 && ModerateItems(items)
    case Object(plain, fields) => plain && |fields| <= 256 && ModerateFields(fields)
    case Foreign => false
    case _ => true
  }

  predicate ModerateItems(items: seq<Json>)
    decreases items, 0
  {
    items == [] || (Moderate(items[0]) && ModerateItems(items[1..]))
  }

  predicate ModerateFields(fields: seq<Field>)
    decreases fields, 0
  {
    fields == []
    || (0 < |fields[0].key| <= 128 && Moderate(fields[0].child) && ModerateFields(fields[1..]))
  }

  /** The clone accepts exactly the moderate trees that are nested at most thirteen deep. */
  lemma {:induction false} ClonesExactly(v: Json, depth: nat)
    ensures CloneValue(v, depth).Some? <==> Moderate(v) && (Height(v) == 0 || depth + Height(v) <= 13)
    decreases v, 2
  {
    match v
    case List(items) => ItemsCloneExactly(items, depth);
    case Object(_, fields) => FieldsCloneExactly(fields, depth);
    case _ =>
  }

  lemma {:induction false} ItemsCloneExactly(items: seq<Json>, depth: nat)
    ensures CloneItems(items, depth).Some? <==>
            ModerateItems(items) && (ItemsHeight(items) == 0 || depth + 1 + ItemsHeight(items) <= 13)
    decreases items, 0
  {
    if items != [] {
      ClonesExactly(items[0], depth + 1);
      ItemsCloneExactly(items[1..], depth);
    }
  }

  lemma {:induction false} FieldsCloneExactly(fields: seq<Field>, depth: nat)
    ensures CloneFields(fields, depth).Some? <==>
            ModerateFields(fields) && (FieldsHeight(fields) == 0 || depth + 1 + FieldsHeight(fields) <= 13)
    decreases fields, 0
  {
    if fields != [] {
      ClonesExactly(fields[0].child, depth + 1);
      FieldsCloneExactly(fields[1..], depth);
    }
  }

  lemma {:induction false} RejectedIsSecretive(fields: seq<Field>, secret: string -> bool)
    ensures Rejects(fields, secret) ==> SecretFields(fields, secret)
    decreases fields
  {
    if fields != [] {
      if fields[0].child.Object? {
        RejectedIsSecretive(fields[0].child.fields, secret);
      } else if fields[0].child.List? {
        RejectedItemsAreSecretive(fields[0].child.items, secret);
      }
      RejectedIsSecretive(fields[1..], secret);
    }
  }

  lemma {:induction false} RejectedItemsAreSecretive(items: seq<Json>, secret: string -> bool)
    ensures RejectsItems(items, secret) ==> AnySecretive(items, secret)
    decreases items
  {
    if items != [] {
      if items[0].Object? {
        RejectedIsSecretive(items[0].fields, secret);
      }
      RejectedItemsAreSecretive(items[1..], secret);
    }
  }

  /** A configuration that the setup draft stores passes both checks of the configuration
      store and comes out equal; it is the one that was given unless it had a field that
      an assignment loses. */
  lemma DraftConfigIsAccepted(fields: seq<Field>, secret: string -> bool)
    requires DraftObject(fields, 0, secret).Some?
    ensures var stored := DraftObject(fields, 0, secret).value;
            && !Rejects(stored, secret)
            && CloneObject(true, stored, 0) == Some(stored) && DraftObject(stored, 0, secret) == Some(stored)
            && (stored == fields <==> !PrototypeFields(fields))
  {
    FieldsAgree(fields, 0, secret);
    var stored := DraftObject(fields, 0, secret).value;
    StrippedFieldsAccepted(fields, 0, secret);
    StrippedFieldsHaveNone(fields);
    StrippedFieldsExactly(fields);
    StrippedFieldsExactly(stored);
    FieldsAgree(stored, 0, secret);
    RejectedIsSecretive(stored, secret);
  }
}
