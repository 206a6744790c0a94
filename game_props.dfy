/**
 * Properties of the header map and of the header the builder collects:
 * lookups are case-insensitive and see the last value stored, keys are
 * always upper-case, and once the game phase starts the header is final.
 */
module GameProps {
  import opened LexChars
  import opened LexSpec
  import opened LexProps
  import opened Game

  /** A value stored under a name is found under any spelling of that name. */
  lemma GetAfterAdd(gi: GameInfo, p: Property, name: string)
    requires Upper(name) == Upper(p.name)
    ensures gi.AddProperty(p).GetProperty(name) == (p.value, true)
  {
  }

  /** Storing a property leaves the lookups of every other name as they were. */
  lemma GetOtherAfterAdd(gi: GameInfo, p: Property, name: string)
    requires Upper(name) != Upper(p.name)
    ensures gi.AddProperty(p).GetProperty(name) == gi.GetProperty(name)
  {
  }

  /** Of two values stored under the same name, in any spelling, the last one wins. */
  lemma LastWriteWins(gi: GameInfo, p: Property, q: Property)
    requires Upper(p.name) == Upper(q.name)
    ensures gi.AddProperty(p).AddProperty(q) == gi.AddProperty(q)
  {
  }

  /** Looking a name up is the same as looking up its upper-case form. */
  lemma GetCaseInsensitive(gi: GameInfo, name: string)
    ensures gi.GetProperty(name) == gi.GetProperty(Upper(name))
  {
    UpperIdempotent(name);
  }

  /** Every key of the map is its own upper-case form. */
  ghost predicate Canonical(gi: GameInfo) {
    forall k :: k in gi.properties ==> Upper(k) == k
  }

  /** Storing a property keeps the keys upper-case. */
  lemma AddPropertyCanonical(gi: GameInfo, p: Property)
    requires Canonical(gi)
    ensures Canonical(gi.AddProperty(p))
  {
    UpperIdempotent(p.name);
  }

  /** Whatever the stream, the header the builder collects has upper-case keys only. */
  lemma {:induction false} HeaderFoldCanonical(gi: GameInfo, items: seq<Item>, setup: bool, game: bool, prop: Property)
    requires Canonical(gi)
    ensures Canonical(HeaderFold(gi, items, setup, game, prop))
    decreases |items|
  {
    if items != [] {
      var it := items[0];
      match it.typ
      case ItemSemiColon =>
        HeaderFoldCanonical(gi, items[1..], !setup && !game, setup || game, prop);
      case ItemPropertyName =>
        HeaderFoldCanonical(gi, items[1..], setup, game, Property(it.val, ""));
      case ItemPropertyValue =>
        var p := prop.(value := it.val);
        if setup {
          AddPropertyCanonical(gi, p);
        }
        HeaderFoldCanonical(if setup then gi.AddProperty(p) else gi, items[1..], setup, game, p);
      case ItemLeftParen =>
        HeaderFoldCanonical(gi, items[1..], setup, game, prop);
      case ItemRightParen =>
        HeaderFoldCanonical(gi, items[1..], setup, game, prop);
      case ItemEOF =>
      case ItemError(_) =>
    }
  }

  /**
   * Once the game phase has started the header no longer changes: every
   * later property goes to a node of the tree.
   */
  lemma {:induction false} HeaderFoldInGame(gi: GameInfo, items: seq<Item>, prop: Property)
    ensures HeaderFold(gi, items, false, true, prop) == gi
    decreases |items|
  {
    if items != [] {
      var it := items[0];
      match it.typ
      case ItemSemiColon =>
        HeaderFoldInGame(gi, items[1..], prop);
      case ItemPropertyName =>
        HeaderFoldInGame(gi, items[1..], Property(it.val, ""));
      case ItemPropertyValue =>
        HeaderFoldInGame(gi, items[1..], prop.(value := it.val));
      case ItemLeftParen =>
        HeaderFoldInGame(gi, items[1..], prop);
      case ItemRightParen =>
        HeaderFoldInGame(gi, items[1..], prop);
      case ItemEOF =>
      case ItemError(_) =>
    }
  }

  /**
   * Before the first semicolon (idle phase) no property reaches the
   * header: folding a stream with no semicolon from the idle phase keeps it.
   */
  lemma {:induction false} HeaderFoldIdle(gi: GameInfo, items: seq<Item>, prop: Property)
    requires forall k :: 0 <= k < |items| ==> items[k].typ != ItemSemiColon
    ensures HeaderFold(gi, items, false, false, prop) == gi
    decreases |items|
  {
    if items != [] {
      var it := items[0];
      assert it.typ != ItemSemiColon;
      assert forall k :: 0 <= k < |items[1..]| ==> items[1..][k] == items[k + 1];
      match it.typ
      case ItemPropertyName =>
        HeaderFoldIdle(gi, items[1..], Property(it.val, ""));
      case ItemPropertyValue =>
        HeaderFoldIdle(gi, items[1..], prop.(value := it.val));
      case ItemLeftParen =>
        HeaderFoldIdle(gi, items[1..], prop);
      case ItemRightParen =>
        HeaderFoldIdle(gi, items[1..], prop);
      case ItemEOF =>
      case ItemError(_) =>
    }
  }

  /**
   * Every key the header gains is the upper-case form of the text of some
   * property-name item of the stream, or of the name of the property pending
   * when the fold starts.
   */
  lemma {:induction false} HeaderFoldKeys(gi: GameInfo, items: seq<Item>, setup: bool, game: bool, prop: Property)
    ensures forall k :: k in HeaderFold(gi, items, setup, game, prop).properties ==>
      k in gi.properties || k == Upper(prop.name) ||
      exists j :: 0 <= j < |items| && items[j].typ == ItemPropertyName && k == Upper(items[j].val)
    decreases |items|
  {
    if items != [] {
      var it := items[0];
      var rest := items[1..];
      assert forall j :: 0 <= j < |rest| ==> rest[j] == items[j + 1];
      match it.typ
      case ItemSemiColon =>
        HeaderFoldKeys(gi, rest, !setup && !game, setup || game, prop);
      case ItemPropertyName =>
        HeaderFoldKeys(gi, rest, setup, game, Property(it.val, ""));
      case ItemPropertyValue =>
        var p := prop.(value := it.val);
        HeaderFoldKeys(if setup then gi.AddProperty(p) else gi, rest, setup, game, p);
      case ItemLeftParen =>
        HeaderFoldKeys(gi, rest, setup, game, prop);
      case ItemRightParen =>
        HeaderFoldKeys(gi, rest, setup, game, prop);
      case ItemEOF =>
      case ItemError(_) =>
    }
  }

  /** Each value item comes right after a name item or another value item. */
  predicate ValuesNamed(items: seq<Item>) {
    forall j :: 0 <= j < |items| && items[j].typ == ItemPropertyValue ==>
      0 < j && (items[j - 1].typ == ItemPropertyName || items[j - 1].typ == ItemPropertyValue)
  }

  /**
   * When values only follow names or values, the pending property's name
   * can become a key only through a value that opens the stream; a stream
   * that starts with a value is exactly what `ValuesNamed` rules out.
   */
  lemma {:induction false} HeaderFoldKeysChained(gi: GameInfo, items: seq<Item>, setup: bool, game: bool, prop: Property)
    requires forall j :: 0 < j < |items| && items[j].typ == ItemPropertyValue ==>
      items[j - 1].typ == ItemPropertyName || items[j - 1].typ == ItemPropertyValue
    ensures forall k :: k in HeaderFold(gi, items, setup, game, prop).properties ==>
      k in gi.properties ||
      (items != [] && items[0].typ == ItemPropertyValue && k == Upper(prop.name)) ||
      exists j :: 0 <= j < |items| && items[j].typ == ItemPropertyName && k == Upper(items[j].val)
    decreases |items|
  {
    if items != [] {
      var it := items[0];
      var rest := items[1..];
      assert forall j :: 0 <= j < |rest| ==> rest[j] == items[j + 1];
      match it.typ
      case ItemSemiColon =>
        HeaderFoldKeysChained(gi, rest, !setup && !game, setup || game, prop);
      case ItemPropertyName =>
        HeaderFoldKeysChained(gi, rest, setup, game, Property(it.val, ""));
      case ItemPropertyValue =>
        var p := prop.(value := it.val);
        HeaderFoldKeysChained(if setup then gi.AddProperty(p) else gi, rest, setup, game, p);
      case ItemLeftParen =>
        HeaderFoldKeysChained(gi, rest, setup, game, prop);
      case ItemRightParen =>
        HeaderFoldKeysChained(gi, rest, setup, game, prop);
      case ItemEOF =>
      case ItemError(_) =>
    }
  }

  /**
   * On a stream where no value opens a property, every key the header gains
   * from the builder's start is the upper-case form of some property-name
   * item: the empty pending name never becomes a key.
   */
  lemma HeaderKeysNamed(gi: GameInfo, items: seq<Item>)
    requires ValuesNamed(items)
    ensures forall k :: k in HeaderFold(gi, items, false, false, NoProperty).properties ==>
      k in gi.properties ||
      exists j :: 0 <= j < |items| && items[j].typ == ItemPropertyName && k == Upper(items[j].val)
  {
    HeaderFoldKeysChained(gi, items, false, false, NoProperty);
  }

  /** The scanner's streams meet `ValuesNamed`, so `Parse`'s header keys are all property names of the text. */
  lemma LexHeaderKeys(input: string)
    ensures var r := Lex(input);
      forall k :: k in HeaderFold(GameInfo(map[]), r, false, false, NoProperty).properties ==>
        exists j :: 0 <= j < |r| && r[j].typ == ItemPropertyName && k == Upper(r[j].val)
  {
    LexValuesNamed(input);
    HeaderKeysNamed(GameInfo(map[]), Lex(input));
  }
}
