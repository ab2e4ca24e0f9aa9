/** The `Epistemic-Context` header: the two printers (the client's `contextHeader`
    and the server's `setContextResponse`) and the server's `mergeContextHeader`. */
module Header {
  import opened Text
  import opened Selection

  datatype Field = Decision | Run | Correlation | Parent

  datatype Context = Context(decision: string, run: string, correlation: string, parent: string) {
    function Get(field: Field): string {
      match field
      case Decision => decision
      case Run => run
      case Correlation => correlation
      case Parent => parent
    }

    function With(field: Field, value: string): Context {
      match field
      case Decision => this.(decision := value)
      case Run => this.(run := value)
      case Correlation => this.(correlation := value)
      case Parent => this.(parent := value)
    }
  }

  const EMPTY := Context("", "", "", "")
  const FIELDS := [Decision, Run, Correlation, Parent]

  function Name(field: Field): string {
    match field
    case Decision => "decision"
    case Run => "run"
    case Correlation => "correlation"
    case Parent => "parent"
  }

  // ---- Printing

  function Item(field: Field, value: string): string {
    Name(field) + ['='] + value
  }

  function Part(c: Context, field: Field): seq<string> {
    if c.Get(field) == "" then [] else [Item(field, c.Get(field))]
  }

  /** The `key=value` parts of the given fields, skipping the empty ones. */
  function Parts(c: Context, fields: seq<Field>): seq<string> {
    if fields == [] then [] else Part(c, fields[0]) + Parts(c, fields[1..])
  }

  function Print(c: Context): string {
    Join(Parts(c, FIELDS), ';')
  }

  // ---- Merging

  /** The field and value an item assigns, or None when the parser skips the item. */
  function ParseItem(item: string): Option<(Field, string)> {
    match Cut(TrimSpace(item), '=')
    case None => None
    case Some((key, value)) =>
      if key == "decision" then Some((Decision, value))
      else if key == "run" then Some((Run, value))
      else if key == "correlation" then Some((Correlation, value))
      else if key == "parent" then Some((Parent, value))
      else None
  }

  function MergeItem(c: Context, item: string): Context {
    match ParseItem(item)
    case None => c
    case Some((field, value)) => if c.Get(field) == "" then c.With(field, value) else c
  }

  function MergeItems(c: Context, items: seq<string>): Context
    decreases |items|
  {
    if items == [] then c else MergeItems(MergeItem(c, items[0]), items[1..])
  }

  function Merge(c: Context, header: string): Context {
    MergeItems(c, Split(header, ';'))
  }

  /** The first non-empty value the items carry for a field, "" when there is none. */
  function FirstValue(items: seq<string>, field: Field): string {
    if items == [] then ""
    else
      match ParseItem(items[0])
      case Some((f, value)) => if f == field && value != "" then value else FirstValue(items[1..], field)
      case None => FirstValue(items[1..], field)
  }

  lemma {:induction false} MergeItemsMeans(c: Context, items: seq<string>, field: Field)
    ensures MergeItems(c, items).Get(field) == if c.Get(field) != "" then c.Get(field) else FirstValue(items, field)
    decreases |items|
  {
    if items != [] {
      MergeItemsMeans(MergeItem(c, items[0]), items[1..], field);
    }
  }

  /** For any header: a non-empty body field is never overwritten, and an empty one
      takes the first non-empty value the header has for it. */
  lemma MergeKeepsBodyAndTakesFirst(c: Context, header: string, field: Field)
    ensures Merge(c, header).Get(field)
            == if c.Get(field) != "" then c.Get(field) else FirstValue(Split(header, ';'), field)
  {
    MergeItemsMeans(c, Split(header, ';'), field);
  }

  lemma SameFields(a: Context, b: Context)
    requires forall field :: a.Get(field) == b.Get(field)
    ensures a == b
  {
    assert a.Get(Decision) == b.Get(Decision) && a.Get(Run) == b.Get(Run);
    assert a.Get(Correlation) == b.Get(Correlation) && a.Get(Parent) == b.Get(Parent);
  }

  /** Delivering the same header twice changes nothing further. */
  lemma MergeIsIdempotent(c: Context, header: string)
    ensures Merge(Merge(c, header), header) == Merge(c, header)
  {
    var once := Merge(c, header);
    forall field ensures Merge(once, header).Get(field) == once.Get(field) {
      MergeKeepsBodyAndTakesFirst(c, header, field);
      MergeKeepsBodyAndTakesFirst(once, header, field);
    }
    SameFields(Merge(once, header), once);
  }

  // ---- Round trip

  /** What a value must look like to survive the header. */
  predicate Clean(value: string) {
    ';' !in value && (value == "" || !IsSpace(value[|value| - 1]))
  }

  lemma PrintedItemParses(field: Field, value: string)
    requires value != "" && Clean(value)
    ensures ';' !in Item(field, value)
    ensures ParseItem(Item(field, value)) == Some((field, value))
  {
    hide Cut;
    var item := Item(field, value);
    assert TrimSpace(item) == item by {
      assert item[|item| - 1] == value[|value| - 1];
      assert !IsSpace(item[0]);
    }
    CutAtFirst(Name(field), value, '=');
  }

  lemma {:induction false} PartsCarryFields(c: Context, fields: seq<Field>, field: Field)
    requires forall f :: Clean(c.Get(f))
    requires forall i, j | 0 <= i < j < |fields| :: fields[i] != fields[j]
    ensures forall i | 0 <= i < |Parts(c, fields)| :: ';' !in Parts(c, fields)[i]
    ensures FirstValue(Parts(c, fields), field) == if field in fields then c.Get(field) else ""
  {
    hide Item, Cut;
    if fields != [] {
      PartsCarryFields(c, fields[1..], field);
      assert field in fields <==> field == fields[0] || field in fields[1..];
      if c.Get(fields[0]) != "" {
        PrintedItemParses(fields[0], c.Get(fields[0]));
        var head := Item(fields[0], c.Get(fields[0]));
        assert Parts(c, fields) == [head] + Parts(c, fields[1..]);
        assert ([head] + Parts(c, fields[1..]))[1..] == Parts(c, fields[1..]);
      } else {
        assert Parts(c, fields) == Parts(c, fields[1..]);
      }
    }
  }

  lemma FirstValueOfPrinted(c: Context, field: Field)
    requires forall f :: Clean(c.Get(f))
    ensures FirstValue(Split(Print(c), ';'), field) == c.Get(field)
  {
    PartsCarryFields(c, FIELDS, field);
    var parts := Parts(c, FIELDS);
    if parts == [] {
      assert Split("", ';') == [""];
      assert ParseItem("") == None;
    } else {
      SplitUndoesJoin(parts, ';');
    }
  }

  lemma ParsedValueIsClean(item: string)
    requires ';' !in item && ParseItem(item).Some?
    ensures Clean(ParseItem(item).value.1)
  {
    var trimmed := TrimSpace(item);
    TrimSpaceMakesNoCharacters(item, ';');
    TrimRightEnds(TrimLeft(item));
    CutLeavesSuffix(trimmed, '=');
    var value := Cut(trimmed, '=').value.1;
    assert value == ParseItem(item).value.1;
    assert forall i | 0 <= i < |value| :: value[i] == trimmed[|trimmed| - |value| + i];
  }

  /** Whatever a header delivers is clean. */
  lemma {:induction false} DeliveredValuesAreClean(items: seq<string>, field: Field)
    requires forall i | 0 <= i < |items| :: ';' !in items[i]
    ensures Clean(FirstValue(items, field))
  {
    if items != [] {
      DeliveredValuesAreClean(items[1..], field);
      if ParseItem(items[0]).Some? {
        ParsedValueIsClean(items[0]);
      }
    }
  }

  lemma CleanContextSurvives(c: Context)
    requires forall field :: Clean(c.Get(field))
    ensures Merge(EMPTY, Print(c)) == c
  {
    forall field ensures Merge(EMPTY, Print(c)).Get(field) == c.Get(field) {
      MergeKeepsBodyAndTakesFirst(EMPTY, Print(c), field);
      FirstValueOfPrinted(c, field);
    }
    SameFields(Merge(EMPTY, Print(c)), c);
  }

  lemma MergedFieldIsClean(header: string, field: Field)
    ensures Clean(Merge(EMPTY, header).Get(field))
  {
    MergeKeepsBodyAndTakesFirst(EMPTY, header, field);
    SplitPieces(header, ';');
    DeliveredValuesAreClean(Split(header, ';'), field);
  }

  /** Printing a context and merging it into an empty one gives the context back
      exactly when every field is free of ';' and of trailing white space. */
  lemma PrintThenMerge(c: Context)
    ensures Merge(EMPTY, Print(c)) == c <==> forall field :: Clean(c.Get(field))
  {
    if forall field :: Clean(c.Get(field)) {
      CleanContextSurvives(c);
    } else {
      var field :| !Clean(c.Get(field));
      MergedFieldIsClean(Print(c), field);
    }
  }

  // ---- Field by field, in the header's own words

  ghost function Given(c: Context): nat -> bool {
    (k: nat) => (k == 0 && c.decision != "") || (k == 1 && c.run != "") || (k == 2 && c.correlation != "") || (k == 3 && c.parent != "")
  }

  ghost function Told(c: Context, k: nat): string {
    if k == 0 then "decision=" + c.decision else if k == 1 then "run=" + c.run
    else if k == 2 then "correlation=" + c.correlation else "parent=" + c.parent
  }

  lemma PartIsTold(c: Context, k: nat)
    requires k < 4
    ensures Part(c, FIELDS[k]) == if Given(c)(k) then [Told(c, k)] else []
  {
    assert Item(Decision, c.decision) == "decision=" + c.decision && Item(Run, c.run) == "run=" + c.run;
    assert Item(Correlation, c.correlation) == "correlation=" + c.correlation && Item(Parent, c.parent) == "parent=" + c.parent;
  }

  lemma {:induction false} PartsSelected(c: Context, n: nat) returns (at: seq<nat>)
    requires n <= 4
    ensures Selects(at, n, Given(c)) && |Parts(c, FIELDS[..n])| == |at|
    ensures forall k | 0 <= k < |at| :: Parts(c, FIELDS[..n])[k] == Told(c, at[k])
  {
    hide Given, Told, Part, Parts;
    if n == 0 {
      at := [];
      NothingSelected(Given(c));
      NoParts(c, FIELDS[..0]);
      assert FIELDS[..n] == FIELDS[..0];
    } else {
      var front := PartsSelected(c, n - 1);
      at := OneMoreSelected(front, n - 1, Given(c));
      assert FIELDS[..n] == FIELDS[..n - 1] + [FIELDS[n - 1]];
      PartsOfOneMore(c, FIELDS[..n - 1], FIELDS[n - 1]);
      PartIsTold(c, n - 1);
      assert Parts(c, FIELDS[..n]) == Parts(c, FIELDS[..n - 1]) + if Given(c)(n - 1) then [Told(c, n - 1)] else [];
    }
  }

  lemma NoParts(c: Context, fields: seq<Field>)
    requires fields == []
    ensures Parts(c, fields) == []
  {
  }

  /** The fields that have a value, in this order, each as "name=value", with ';' between them. */
  lemma PrintedExactly(c: Context) returns (at: seq<nat>, parts: seq<string>)
    ensures Selects(at, 4, Given(c)) && |parts| == |at| && forall k | 0 <= k < |at| :: parts[k] == Told(c, at[k])
    ensures Print(c) == Join(parts, ';')
  {
    hide Told, Given, Parts, Join;
    at := PartsSelected(c, 4);
    assert FIELDS[..4] == FIELDS;
    parts := Parts(c, FIELDS);
  }

  /** With all four values. */
  lemma FullHeader(c: Context)
    requires c.decision != "" && c.run != "" && c.correlation != "" && c.parent != ""
    ensures Print(c) == "decision=" + c.decision + ";run=" + c.run + ";correlation=" + c.correlation + ";parent=" + c.parent
  {
    hide Told, Given, Parts, Join;
    var at, parts := PrintedExactly(c);
    AllGiven(c);
    FourSelected(at, Given(c));
    FourJoined(parts[0], parts[1], parts[2], parts[3]);
    assert parts == [parts[0], parts[1], parts[2], parts[3]];
    AllTold(c);
  }

  lemma AllGiven(c: Context)
    requires c.decision != "" && c.run != "" && c.correlation != "" && c.parent != ""
    ensures Given(c)(0) && Given(c)(1) && Given(c)(2) && Given(c)(3)
  {
  }

  lemma AllTold(c: Context)
    ensures Told(c, 0) == "decision=" + c.decision && Told(c, 1) == "run=" + c.run
    ensures Told(c, 2) == "correlation=" + c.correlation && Told(c, 3) == "parent=" + c.parent
  {
  }

  lemma FourSelected(at: seq<nat>, pick: nat -> bool)
    requires Selects(at, 4, pick) && pick(0) && pick(1) && pick(2) && pick(3)
    ensures at == [0, 1, 2, 3]
  {
    var i := Place(at, 0, 4, pick);
    var j := Place(at, 1, 4, pick);
    var k := Place(at, 2, 4, pick);
    var l := Place(at, 3, 4, pick);
    assert i < j < k < l;
    assert i == 0 by { assert at[0] <= at[i]; }
    assert j == 1 by { assert at[1] in at && at[0] < at[1] <= at[j]; }
    assert k == 2 by { assert at[2] in at && at[1] < at[2] <= at[k]; }
    assert l == 3 by { assert at[3] in at && at[2] < at[3] <= at[l]; }
    FewBelow(at, 4);
  }

  lemma {:induction false} FewBelow(at: seq<nat>, n: nat)
    requires (forall i, j | 0 <= i < j < |at| :: at[i] < at[j]) && forall x | x in at :: x < n
    ensures |at| <= n
  {
    if at != [] {
      assert at[|at| - 1] in at;
      FewBelow(at[..|at| - 1], at[|at| - 1]);
    }
  }

  lemma Place(at: seq<nat>, x: nat, n: nat, pick: nat -> bool) returns (i: nat)
    requires Selects(at, n, pick) && x < n && pick(x)
    ensures i < |at| && at[i] == x && forall m | 0 <= m < |at| :: (m < i <==> at[m] < x) && (at[m] == x <==> m == i)
  {
    assert x in at;
    i :| 0 <= i < |at| && at[i] == x;
  }

  lemma FourJoined(a: string, b: string, c: string, d: string)
    ensures Join([a, b, c, d], ';') == a + ";" + b + ";" + c + ";" + d
  {
    assert [a, b, c, d][1..] == [b, c, d] && [b, c, d][1..] == [c, d] && [c, d][1..] == [d];
    assert Join([c, d], ';') == c + [';'] + d;
    assert Join([b, c, d], ';') == b + [';'] + Join([c, d], ';');
  }

  /** The item gives this name a value. */
  ghost predicate Assigns(item: string, name: string, value: string) {
    value != "" && TrimSpace(item) == name + "=" + value
  }

  ghost predicate FirstAssigns(items: seq<string>, name: string, value: string, i: nat) {
    i < |items| && Assigns(items[i], name, value) && forall j, other | 0 <= j < i :: !Assigns(items[j], name, other)
  }

  /** A value stays; an empty field takes the first value given to its name, if any. */
  ghost predicate Filled(before: string, after: string, items: seq<string>, name: string) {
    && (before != "" ==> after == before)
    && (before == "" && after != "" ==> exists i: nat :: FirstAssigns(items, name, after, i))
    && (before == "" && after == "" ==> forall j, other | 0 <= j < |items| :: !Assigns(items[j], name, other))
  }

  lemma ItemAssigns(item: string, field: Field)
    ensures forall value | value != "" :: ParseItem(item) == Some((field, value)) <==> Assigns(item, Name(field), value)
  {
    hide TrimSpace, Cut;
    var trimmed := TrimSpace(item);
    CutExactly(trimmed, '=');
    forall value | value != "" ensures ParseItem(item) == Some((field, value)) <==> Assigns(item, Name(field), value) {
      assert Cut(trimmed, '=') == Some((Name(field), value)) <==> trimmed == Name(field) + ['='] + value;
      NamesDiffer();
    }
  }

  lemma NamesDiffer()
    ensures "decision" != "run" && "decision" != "correlation" && "decision" != "parent"
    ensures "run" != "correlation" && "run" != "parent" && "correlation" != "parent"
  {
    assert |"decision"| == 8 && |"run"| == 3 && |"correlation"| == 11 && |"parent"| == 6;
  }

  lemma {:induction false} FirstValueFills(items: seq<string>, field: Field)
    ensures Filled("", FirstValue(items, field), items, Name(field))
  {
    hide Assigns, Name, ParseItem;
    if items != [] {
      var rest, value := items[1..], FirstValue(items, field);
      FirstValueFills(rest, field);
      ItemAssigns(items[0], field);
      if ParseItem(items[0]).Some? && ParseItem(items[0]).value.0 == field && ParseItem(items[0]).value.1 != "" {
        assert FirstAssigns(items, Name(field), value, 0);
      } else {
        assert forall other :: !Assigns(items[0], Name(field), other) by { NothingAssigned(items[0], field); }
        if i: nat :| FirstAssigns(rest, Name(field), value, i) {
          assert FirstAssigns(items, Name(field), value, i + 1);
        }
      }
    }
  }

  lemma NothingAssigned(item: string, field: Field)
    requires ParseItem(item).None? || ParseItem(item).value.0 != field || ParseItem(item).value.1 == ""
    ensures forall other :: !Assigns(item, Name(field), other)
  {
    hide ParseItem, Name;
    ItemAssigns(item, field);
    forall other ensures !Assigns(item, Name(field), other) {
      if other != "" {
        assert ParseItem(item) != Some((field, other));
      }
    }
  }

  /** Merging a header: field by field, first value first, nothing overwritten. */
  lemma MergedExactly(c: Context, header: string)
    ensures var items, r := Split(header, ';'), Merge(c, header);
            && Filled(c.decision, r.decision, items, "decision") && Filled(c.run, r.run, items, "run")
            && Filled(c.correlation, r.correlation, items, "correlation") && Filled(c.parent, r.parent, items, "parent")
  {
    hide FirstAssigns, Assigns, MergeItems;
    var items := Split(header, ';');
    MergeKeepsBodyAndTakesFirst(c, header, Decision);
    MergeKeepsBodyAndTakesFirst(c, header, Run);
    MergeKeepsBodyAndTakesFirst(c, header, Correlation);
    MergeKeepsBodyAndTakesFirst(c, header, Parent);
    FirstValueFills(items, Decision);
    FirstValueFills(items, Run);
    FirstValueFills(items, Correlation);
    FirstValueFills(items, Parent);
  }

  // ---- The code

  lemma {:induction false} PartsOfOneMore(c: Context, fields: seq<Field>, field: Field)
    ensures Parts(c, fields + [field])
            == Parts(c, fields) + Part(c, field)
  {
    var more := fields + [field];
    if fields == [] {
      assert more[0] == field && more[1..] == [];
      assert Parts(c, more) == Part(c, field) + Parts(c, []);
    } else {
      PartsOfOneMore(c, fields[1..], field);
      assert more[0] == fields[0] && more[1..] == fields[1..] + [field];
      AppendLast(Part(c, fields[0]), Parts(c, fields[1..]), Part(c, field));
    }
  }

  lemma AppendLast(a: seq<string>, b: seq<string>, c: seq<string>)
    ensures a + (b + c) == a + b + c
  {
  }

  /** The loop shared by `contextHeader` and `setContextResponse`. */
  method ContextHeader(c: Context) returns (header: string)
    ensures header == Print(c)
  {
    var parts: seq<string> := [];
    var pairs := [("decision", c.decision), ("run", c.run), ("correlation", c.correlation), ("parent", c.parent)];
    for i := 0 to |pairs|
      invariant parts == Parts(c, FIELDS[..i])
    {
      assert FIELDS[..i + 1] == FIELDS[..i] + [FIELDS[i]];
      PartsOfOneMore(c, FIELDS[..i], FIELDS[i]);
      if pairs[i].1 != "" {
        parts := parts + [pairs[i].0 + ['='] + pairs[i].1];
      }
    }
    assert FIELDS[..4] == FIELDS;
    header := Join(parts, ';');
  }

  /** The header a response carries: none at all when every field is empty. */
  method SetContextResponse(c: Context) returns (header: Option<string>)
    ensures header == if c == EMPTY then None else Some(Print(c))
  {
    var printed := ContextHeader(c);
    if c.decision != "" || c.run != "" || c.correlation != "" || c.parent != "" {
      header := Some(printed);
    } else {
      header := None;
    }
  }

  /** The context of a decoded message, which the server fills in place. */
  class ContextCell {
    var decision: string
    var run: string
    var correlation: string
    var parent: string

    constructor (c: Context)
      ensures Value() == c
    {
      decision, run, correlation, parent := c.decision, c.run, c.correlation, c.parent;
    }

    function Value(): Context
      reads this
    {
      Context(decision, run, correlation, parent)
    }

    method MergeContextHeader(header: string)
      modifies this
      ensures Value() == Merge(old(Value()), header)
    {
      var items := Split(header, ';');
      for i := 0 to |items|
        invariant MergeItems(Value(), items[i..]) == Merge(old(Value()), header)
      {
        assert items[i..][1..] == items[i + 1..];
        var pair := Cut(TrimSpace(items[i]), '=');
        if pair.Some? {
          var (key, value) := pair.value;
          if key == "decision" {
            if decision == "" { decision := value; }
          } else if key == "run" {
            if run == "" { run := value; }
          } else if key == "correlation" {
            if correlation == "" { correlation := value; }
          } else if key == "parent" {
            if parent == "" { parent := value; }
          }
        }
      }
    }
  }
}
