/**
 * The administration form that edits the list of domain-entity pairs
 * (`DomainEntityConfigForm`): the working list kept in the form state, the
 * per-row defaults, the add and remove buttons, the entity-type options, and
 * the save that replaces the configured list with its complete rows.
 */
module ConfigForm {
  import opened Php
  import opened DomainEntity

  /** One submitted table row, as `$form_state->getValue('pairs')[$i]`. */
  type Row = map<string, Value>

  /** `$row[$name]`, Null when the key is absent. */
  function Field(row: Row, name: string): Value
  {
    if name in row then row[name] else Null
  }

  /** `$form_state->getValue(['pairs', $i, $name])` */
  function SubmittedValue(values: seq<Row>, i: nat, name: string): Value
  {
    if i < |values| then Field(values[i], name) else Null
  }

  const NodeType: Value := Str("node")

  /** The row `addCallback` appends. */
  function NewRow(): Pair
  {
    Pair(Str(""), NodeType, Str(""))
  }

  // ---------------------------------------------------------------------------
  // buildForm
  // ---------------------------------------------------------------------------

  /** `$form_state->get('pairs') ?? $config->get('domain_entity_pairs') ?? []` */
  function InitialPairs(stored: Option<seq<Pair>>, config: Config): (pairs: seq<Pair>)
    ensures stored.Some? ==> pairs == stored.value
    ensures stored.None? && PairsKey in config ==> pairs == config[PairsKey]
    ensures stored.None? && PairsKey !in config ==> pairs == []
  {
    match stored
    case Some(ps) => ps
    case None => OrEmpty(StoredPairs(config))
  }

  /**
   * A row's entity type: the submitted value, else the row's own, else 'node'.
   * Only null falls through, so a submitted "" is kept.
   */
  function RowEntityType(submitted: Value, pair: Pair): (t: Value)
    ensures !submitted.Null? ==> t == submitted
    ensures submitted.Null? && !pair.entityType.Null? ==> t == pair.entityType
    ensures submitted.Null? && pair.entityType.Null? ==> t == NodeType
    ensures !t.Null?
  {
    Coalesce(Coalesce(submitted, pair.entityType), NodeType)
  }

  /** The name of row `i`'s remove button, `'remove_' . $index`. */
  function RemoveButtonName(i: nat): string
  {
    "remove_" + NatToString(i)
  }

  /** What one table row of the built form holds. */
  datatype RowWidget = RowWidget(
    domainDefault: Value,
    entityType: Value,
    entityDefault: Option<Entity>,
    removeName: string)

  /** The widgets of row `i`. */
  function RowWidgetAt(services: EntityServices, values: seq<Row>, pairs: seq<Pair>, i: nat): RowWidget
    requires i < |pairs|
  {
    var p := pairs[i];
    var entityType := RowEntityType(SubmittedValue(values, i, "entity_type"), p);
    RowWidget(
      p.domain,
      entityType,
      if !IsEmpty(p.entityId) then services.load(entityType, p.entityId) else None,
      RemoveButtonName(i))
  }

  /** The foreach of `buildForm` over the working list. */
  method BuildRows(services: EntityServices, values: seq<Row>, pairs: seq<Pair>) returns (rows: seq<RowWidget>)
    ensures |rows| == |pairs|
    ensures forall i :: 0 <= i < |pairs| ==> rows[i] == RowWidgetAt(services, values, pairs, i)
  {
    rows := [];
    for i := 0 to |pairs|
      invariant |rows| == i
      invariant forall j :: 0 <= j < i ==> rows[j] == RowWidgetAt(services, values, pairs, j)
    {
      var pair := pairs[i];
      var entityType := Coalesce(Coalesce(SubmittedValue(values, i, "entity_type"), pair.entityType), NodeType);
      var entityDefault := None;
      if !IsEmpty(pair.entityId) {
        entityDefault := services.load(entityType, pair.entityId);
      }
      rows := rows + [RowWidget(pair.domain, entityType, entityDefault, "remove_" + NatToString(i))];
    }
  }

  // ---------------------------------------------------------------------------
  // getEntityTypeOptions
  // ---------------------------------------------------------------------------

  /** One option of the entity-type select: the type id mapped to its label. */
  datatype TypeChoice = TypeChoice(id: string, displayLabel: string)

  function ChoiceOf(d: EntityTypeDefinition): TypeChoice
  {
    TypeChoice(d.id, d.displayLabel)
  }

  /** `getDefinitions()` is keyed by entity type id, so no id occurs twice. */
  predicate DistinctIds(defs: seq<EntityTypeDefinition>)
  {
    forall i, j :: 0 <= i < j < |defs| ==> defs[i].id != defs[j].id
  }

  /** The content-group definitions, in registry order, before sorting. */
  function ContentChoices(defs: seq<EntityTypeDefinition>): seq<TypeChoice>
    decreases |defs|
  {
    if defs == [] then []
    else
      var d := defs[|defs| - 1];
      ContentChoices(defs[..|defs| - 1]) + if d.group == "content" then [ChoiceOf(d)] else []
  }

  lemma {:induction false} ContentChoicesExact(defs: seq<EntityTypeDefinition>, c: TypeChoice)
    ensures c in ContentChoices(defs) <==>
      exists k :: 0 <= k < |defs| && defs[k].group == "content" && c == ChoiceOf(defs[k])
    decreases |defs|
  {
    if defs != [] {
      var init, d := defs[..|defs| - 1], defs[|defs| - 1];
      ContentChoicesExact(init, c);
      if c in ContentChoices(init) {
        var k :| 0 <= k < |init| && init[k].group == "content" && c == ChoiceOf(init[k]);
        assert defs[k] == init[k];
      }
      if exists k :: 0 <= k < |defs| && defs[k].group == "content" && c == ChoiceOf(defs[k]) {
        var k :| 0 <= k < |defs| && defs[k].group == "content" && c == ChoiceOf(defs[k]);
        if k < |init| {
          assert init[k] == defs[k];
        }
      }
    }
  }

  /** Byte-wise string order, standing for the collation `asort` applies to labels. */
  predicate LabelLess(a: string, b: string)
    decreases |a|
  {
    if a == [] then b != []
    else if b == [] then false
    else if a[0] != b[0] then a[0] < b[0]
    else LabelLess(a[1..], b[1..])
  }

  lemma {:induction false} LabelLessIrreflexive(a: string)
    ensures !LabelLess(a, a)
    decreases |a|
  {
    if a != [] {
      LabelLessIrreflexive(a[1..]);
    }
  }

  lemma {:induction false} LabelLessTransitive(a: string, b: string, c: string)
    requires LabelLess(a, b) && LabelLess(b, c)
    ensures LabelLess(a, c)
    decreases |a|
  {
    if a != [] && a[0] == b[0] && b[0] == c[0] {
      LabelLessTransitive(a[1..], b[1..], c[1..]);
    }
  }

  predicate SortedByLabel(s: seq<TypeChoice>)
  {
    forall i, j :: 0 <= i < j < |s| ==> !LabelLess(s[j].displayLabel, s[i].displayLabel)
  }

  /** Places `c` after every choice whose label is not greater than its own. */
  function InsertByLabel(s: seq<TypeChoice>, c: TypeChoice): (r: seq<TypeChoice>)
    ensures multiset(r) == multiset(s) + multiset{c}
    decreases |s|
  {
    if s == [] then [c]
    else if LabelLess(c.displayLabel, s[0].displayLabel) then [c] + s
    else
      assert s == [s[0]] + s[1..];
      [s[0]] + InsertByLabel(s[1..], c)
  }

  lemma {:induction false} InsertKeepsSorted(s: seq<TypeChoice>, c: TypeChoice)
    requires SortedByLabel(s)
    ensures SortedByLabel(InsertByLabel(s, c))
    decreases |s|
  {
    if s == [] {
    } else if LabelLess(c.displayLabel, s[0].displayLabel) {
      var r := [c] + s;
      forall j | 1 <= j < |r|
        ensures !LabelLess(r[j].displayLabel, c.displayLabel)
      {
        if LabelLess(r[j].displayLabel, c.displayLabel) {
          LabelLessTransitive(r[j].displayLabel, c.displayLabel, s[0].displayLabel);
          if j == 1 {
            LabelLessIrreflexive(s[0].displayLabel);
          }
        }
      }
    } else {
      var t := InsertByLabel(s[1..], c);
      InsertKeepsSorted(s[1..], c);
      forall j | 0 <= j < |t|
        ensures !LabelLess(t[j].displayLabel, s[0].displayLabel)
      {
        assert t[j] in multiset(t);
        if t[j] != c {
          assert t[j] in multiset(s[1..]);
          var k :| 0 <= k < |s[1..]| && s[1..][k] == t[j];
          assert s[k + 1] == t[j];
        }
      }
      var r := [s[0]] + t;
      assert forall i, j :: 0 < i < j < |r| ==> r[i] == t[i - 1] && r[j] == t[j - 1];
    }
  }

  /** PHP's `asort` on the options, ordering by label and keeping each id with its label. */
  function Asort(s: seq<TypeChoice>): (r: seq<TypeChoice>)
    ensures multiset(r) == multiset(s)
    ensures SortedByLabel(r)
    decreases |s|
  {
    if s == [] then []
    else
      var sorted := Asort(s[..|s| - 1]);
      InsertKeepsSorted(sorted, s[|s| - 1]);
      assert s == s[..|s| - 1] + [s[|s| - 1]];
      InsertByLabel(sorted, s[|s| - 1])
  }

  // ---------------------------------------------------------------------------
  // removeCallback
  // ---------------------------------------------------------------------------

  /** The longest run of digits that `s` starts with. */
  function LeadingDigits(s: string): (d: string)
    ensures AllDigits(d) && |d| <= |s| && d == s[..|d|]
    ensures |d| < |s| ==> !IsDigit(s[|d|])
    decreases |s|
  {
    if s != [] && IsDigit(s[0]) then [s[0]] + LeadingDigits(s[1..]) else []
  }

  /** `remove_` followed by a digit starts at position `p` of `name`. */
  predicate MatchAt(name: string, p: nat)
  {
    p + 8 <= |name| && name[p..p + 7] == "remove_" && IsDigit(name[p + 7])
  }

  /**
   * `preg_match('/remove_(\d+)/', $name, $m)` from position `pos` on: the
   * digits of the leftmost match, which need not start the name.
   */
  function RemoveMatch(name: string, pos: nat): Option<string>
    decreases |name| - pos
  {
    if pos + 8 > |name| then None
    else if MatchAt(name, pos) then Some(LeadingDigits(name[pos + 7..]))
    else RemoveMatch(name, pos + 1)
  }

  /**
   * The search finds nothing exactly when no position from `pos` on starts a
   * match; otherwise it captures the whole digit run after the leftmost one.
   */
  lemma {:induction false} RemoveMatchLeftmost(name: string, pos: nat)
    ensures RemoveMatch(name, pos).None? <==> forall p: nat :: pos <= p ==> !MatchAt(name, p)
    ensures RemoveMatch(name, pos).Some? ==>
      exists p: nat :: pos <= p && MatchAt(name, p) && (forall q: nat :: pos <= q < p ==> !MatchAt(name, q))
                       && RemoveMatch(name, pos).value == LeadingDigits(name[p + 7..])
    decreases |name| - pos
  {
    if pos + 8 > |name| {
    } else if MatchAt(name, pos) {
      assert forall q: nat :: pos <= q < pos ==> !MatchAt(name, q);
    } else {
      RemoveMatchLeftmost(name, pos + 1);
      if RemoveMatch(name, pos).Some? {
        var p: nat :| pos + 1 <= p && MatchAt(name, p) && (forall q: nat :: pos + 1 <= q < p ==> !MatchAt(name, q))
                      && RemoveMatch(name, pos + 1).value == LeadingDigits(name[p + 7..]);
        assert forall q: nat :: pos <= q < p ==> !MatchAt(name, q);
      }
    }
  }

  /**
   * The captured index of a trigger name, `$matches[1] ?? NULL`: None when no
   * `remove_<digit>` occurs, else the maximal digit run of the leftmost one.
   */
  function RemoveIndex(name: string): (r: Option<string>)
    ensures r.None? <==> forall p: nat :: !MatchAt(name, p)
    ensures r.Some? ==>
      exists p: nat :: MatchAt(name, p) && (forall q: nat :: q < p ==> !MatchAt(name, q))
                       && r.value == LeadingDigits(name[p + 7..])
    ensures r.Some? ==> r.value != [] && AllDigits(r.value)
  {
    RemoveMatchLeftmost(name, 0);
    RemoveMatch(name, 0)
  }

  lemma {:induction false} LeadingDigitsOfDigits(s: string)
    requires AllDigits(s)
    ensures LeadingDigits(s) == s
    decreases |s|
  {
    if s != [] {
      LeadingDigitsOfDigits(s[1..]);
    }
  }

  /** Parsing a remove button's name gives back the index it was built from. */
  lemma RemoveButtonRoundTrip(i: nat)
    requires i <= PhpIntMax
    ensures RemoveIndex(RemoveButtonName(i)) == Some(NatToString(i))
    ensures ArrayKey(Str(NatToString(i))) == IntKey(i)
  {
    var name := RemoveButtonName(i);
    assert name[0..7] == "remove_";
    assert name[7..] == NatToString(i);
    assert name[7] == NatToString(i)[0];
    LeadingDigitsOfDigits(NatToString(i));
    NatStringKey(i);
  }

  /** `unset($pairs[$key])` followed by `array_values`. */
  function Unset(pairs: seq<Pair>, key: Key): (r: seq<Pair>)
    ensures key.IntKey? && 0 <= key.n < |pairs| ==>
      && |r| == |pairs| - 1
      && (forall j :: 0 <= j < key.n ==> r[j] == pairs[j])
      && (forall j :: key.n <= j < |r| ==> r[j] == pairs[j + 1])
    ensures !(key.IntKey? && 0 <= key.n < |pairs|) ==> r == pairs
  {
    if key.IntKey? && 0 <= key.n < |pairs| then pairs[..key.n] + pairs[key.n + 1..] else pairs
  }

  /** The working list `removeCallback` stores, or None when the name does not match and nothing is stored. */
  function RemovedPairs(stored: Option<seq<Pair>>, triggerName: string): Option<seq<Pair>>
  {
    match RemoveIndex(triggerName)
    case None => None
    case Some(index) => Some(Unset(OrEmpty(stored), ArrayKey(Str(index))))
  }

  /** Row `i`'s remove button removes row `i` and closes the gap. */
  lemma RemoveButtonRemovesRow(services: EntityServices, values: seq<Row>, pairs: seq<Pair>, i: nat)
    requires i < |pairs| && i <= PhpIntMax
    ensures RemovedPairs(Some(pairs), RowWidgetAt(services, values, pairs, i).removeName)
      == Some(pairs[..i] + pairs[i + 1..])
  {
    RemoveButtonRoundTrip(i);
  }

  /** Removing the row just added gives the list back. */
  lemma AddThenRemove(pairs: seq<Pair>)
    requires |pairs| <= PhpIntMax
    ensures RemovedPairs(Some(pairs + [NewRow()]), RemoveButtonName(|pairs|)) == Some(pairs)
  {
    var added := pairs + [NewRow()];
    RemoveButtonRoundTrip(|pairs|);
    assert added[..|pairs|] + added[|pairs| + 1..] == pairs;
  }

  // ---------------------------------------------------------------------------
  // submitForm
  // ---------------------------------------------------------------------------

  /** A row is saved when its domain, entity type and entity id are all non-empty. */
  predicate Complete(row: Row)
  {
    !IsEmpty(Field(row, "domain")) && !IsEmpty(Field(row, "entity_type")) && !IsEmpty(Field(row, "entity_id"))
  }

  /** The saved record: only the three fields, with the submitted values. */
  function Project(row: Row): Pair
  {
    Pair(Field(row, "domain"), Field(row, "entity_type"), Field(row, "entity_id"))
  }

  /** The list `submitForm` builds from the submitted rows. */
  function Kept(rows: seq<Row>): seq<Pair>
    decreases |rows|
  {
    if rows == [] then []
    else
      var row := rows[|rows| - 1];
      Kept(rows[..|rows| - 1]) + if Complete(row) then [Project(row)] else []
  }

  /** How many of `rows` are complete. */
  function CountComplete(rows: seq<Row>): nat
    decreases |rows|
  {
    if rows == [] then 0 else (if Complete(rows[0]) then 1 else 0) + CountComplete(rows[1..])
  }

  lemma {:induction false} CountCompleteAppend(rows: seq<Row>, row: Row)
    ensures CountComplete(rows + [row]) == CountComplete(rows) + if Complete(row) then 1 else 0
    decreases |rows|
  {
    if rows != [] {
      assert (rows + [row])[1..] == rows[1..] + [row];
      CountCompleteAppend(rows[1..], row);
    }
  }

  /** One entry per complete row, each with its three fields non-empty. */
  lemma {:induction false} KeptSize(rows: seq<Row>)
    ensures |Kept(rows)| == CountComplete(rows) <= |rows|
    ensures forall j :: 0 <= j < |Kept(rows)| ==>
      !IsEmpty(Kept(rows)[j].domain) && !IsEmpty(Kept(rows)[j].entityType) && !IsEmpty(Kept(rows)[j].entityId)
    decreases |rows|
  {
    if rows != [] {
      var init := rows[..|rows| - 1];
      KeptSize(init);
      CountCompleteAppend(init, rows[|rows| - 1]);
      assert rows == init + [rows[|rows| - 1]];
    }
  }

  /** A complete row `k` is saved at the position given by the complete rows before it. */
  lemma {:induction false} KeptPosition(rows: seq<Row>, k: nat)
    requires k < |rows| && Complete(rows[k])
    ensures CountComplete(rows[..k]) < |Kept(rows)|
    ensures Kept(rows)[CountComplete(rows[..k])] == Project(rows[k])
    decreases |rows|
  {
    var init := rows[..|rows| - 1];
    KeptSize(init);
    if k == |rows| - 1 {
      assert rows[..k] == init;
    } else {
      assert rows[..k] == init[..k];
      KeptPosition(init, k);
    }
  }

  /** Complete rows keep their relative order: a later one is saved at a later position. */
  lemma {:induction false} KeptOrder(rows: seq<Row>, k1: nat, k2: nat)
    requires k1 < k2 <= |rows| && Complete(rows[k1])
    ensures CountComplete(rows[..k1]) < CountComplete(rows[..k2])
    decreases k2
  {
    CountCompleteAppend(rows[..k2 - 1], rows[k2 - 1]);
    assert rows[..k2] == rows[..k2 - 1] + [rows[k2 - 1]];
    if k1 < k2 - 1 {
      KeptOrder(rows, k1, k2 - 1);
    } else {
      assert rows[..k1] == rows[..k2 - 1];
    }
  }

  /** The example row set: the blank middle row is dropped, the others are kept in order. */
  lemma SubmitExample()
    ensures Kept([
      map["domain" := Str("a.com"), "entity_type" := Str("page"), "entity_id" := Int(1)],
      map["domain" := Str(""), "entity_type" := Str(""), "entity_id" := Str("")],
      map["domain" := Str("b.com"), "entity_type" := Str("article"), "entity_id" := Int(2)]])
      == [Pair(Str("a.com"), Str("page"), Int(1)), Pair(Str("b.com"), Str("article"), Int(2))]
  {
    var rows := [
      map["domain" := Str("a.com"), "entity_type" := Str("page"), "entity_id" := Int(1)],
      map["domain" := Str(""), "entity_type" := Str(""), "entity_id" := Str("")],
      map["domain" := Str("b.com"), "entity_type" := Str("article"), "entity_id" := Int(2)]];
    assert rows[..1][..0] == [];
    assert Kept(rows[..1]) == [Pair(Str("a.com"), Str("page"), Int(1))];
    assert rows[..2][..1] == rows[..1];
    assert Kept(rows[..2]) == [Pair(Str("a.com"), Str("page"), Int(1))];
    assert rows[..2] == rows[..|rows| - 1];
  }

  /** The foreach of `submitForm`, appending each complete row's three fields. */
  method FilterRows(rows: seq<Row>) returns (pairs: seq<Pair>)
    ensures pairs == Kept(rows)
  {
    pairs := [];
    for i := 0 to |rows|
      invariant pairs == Kept(rows[..i])
    {
      var pair := rows[i];
      assert rows[..i + 1][..i] == rows[..i];
      if !IsEmpty(Field(pair, "domain")) && !IsEmpty(Field(pair, "entity_type")) && !IsEmpty(Field(pair, "entity_id")) {
        pairs := pairs + [Pair(Field(pair, "domain"), Field(pair, "entity_type"), Field(pair, "entity_id"))];
      }
    }
    assert rows[..|rows|] == rows;
  }

  // ---------------------------------------------------------------------------
  // The form and its state
  // ---------------------------------------------------------------------------

  /** The parts of the form state this form reads and writes. */
  class FormState {
    var storage: Option<seq<Pair>>  // $form_state->get('pairs')
    var values: seq<Row>            // $form_state->getValue('pairs')
    var rebuild: bool

    constructor (values: seq<Row>)
      ensures storage == None && this.values == values && !rebuild
    {
      storage := None;
      this.values := values;
      rebuild := false;
    }
  }

  class DomainEntityConfigForm {
    var config: Config
    const services: EntityServices

    constructor (config: Config, services: EntityServices)
      ensures this.config == config && this.services == services
    {
      this.config := config;
      this.services := services;
    }

    /** Fixes the working list in the form state and builds one row of widgets per pair. */
    method BuildForm(formState: FormState) returns (rows: seq<RowWidget>)
      modifies formState
      ensures formState.storage == Some(InitialPairs(old(formState.storage), config))
      ensures formState.values == old(formState.values) && formState.rebuild == old(formState.rebuild)
      ensures |rows| == |InitialPairs(old(formState.storage), config)|
      ensures forall i :: 0 <= i < |rows| ==>
        rows[i] == RowWidgetAt(services, formState.values, InitialPairs(old(formState.storage), config), i)
    {
      var pairs := match formState.storage case Some(ps) => ps case None => OrEmpty(StoredPairs(config));
      formState.storage := Some(pairs);
      rows := BuildRows(services, formState.values, pairs);
    }

    /** The content entity types, each id with its label, sorted by label. */
    method GetEntityTypeOptions() returns (options: seq<TypeChoice>)
      requires DistinctIds(services.definitions)
      ensures multiset(options) == multiset(ContentChoices(services.definitions))
      ensures SortedByLabel(options)
    {
      var defs := services.definitions;
      options := [];
      for i := 0 to |defs|
        invariant options == ContentChoices(defs[..i])
      {
        assert defs[..i + 1][..i] == defs[..i];
        if defs[i].group == "content" {
          options := options + [TypeChoice(defs[i].id, defs[i].displayLabel)];
        }
      }
      assert defs[..|defs|] == defs;
      options := Asort(options);
    }

    /** Appends an empty row to the working list and asks for a rebuild. */
    method AddCallback(formState: FormState)
      modifies formState
      ensures formState.storage == Some(OrEmpty(old(formState.storage)) + [NewRow()])
      ensures formState.values == old(formState.values) && formState.rebuild
    {
      var pairs := OrEmpty(formState.storage);
      pairs := pairs + [Pair(Str(""), Str("node"), Str(""))];
      formState.storage := Some(pairs);
      formState.rebuild := true;
    }

    /** Removes the row the pressed button names; a name without `remove_<digits>` changes nothing. */
    method RemoveCallback(formState: FormState, triggerName: string)
      modifies formState
      ensures formState.values == old(formState.values)
      ensures match RemovedPairs(old(formState.storage), triggerName)
        case None => formState.storage == old(formState.storage) && formState.rebuild == old(formState.rebuild)
        case Some(pairs) => formState.storage == Some(pairs) && formState.rebuild
    {
      var index := RemoveMatch(triggerName, 0);
      if index.Some? {
        var pairs := OrEmpty(formState.storage);
        var key := ArrayKey(Str(index.value));
        if key.IntKey? && 0 <= key.n < |pairs| {
          pairs := pairs[..key.n] + pairs[key.n + 1..];
        }
        formState.storage := Some(pairs);
        formState.rebuild := true;
      }
    }

    /** Replaces the configured list, wholesale, with the submitted complete rows. */
    method SubmitForm(formState: FormState)
      modifies this
      ensures config == old(config)[PairsKey := Kept(formState.values)]
    {
      var pairs := FilterRows(formState.values);
      config := config[PairsKey := pairs];
    }
  }
}
