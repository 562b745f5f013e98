/**
 * What a log line is made of (platform/src/log.ts, redactDeep, cleanValue and
 * logLine). Which names look secret, how text is put on one line, scrubbed and cut,
 * and how a nested value is written as JSON are parameters: nothing here depends
 * on them.
 */
module LogRedaction {
  /** A JavaScript value as the log meets it; an object's fields in their order. */
  datatype Value =
    | Undefined
    | Null
    | Bool(b: bool)
    | Number(n: int)
    | Text(text: string)
    | Failure(message: string)
    | List(items: seq<Value>)
    | Object(fields: seq<Field>)

  datatype Field = Field(name: string, value: Value)

  datatype Rules = Rules(isSecret: string -> bool, oneLine: string -> string, scrub: string -> string,
      cut: string -> string, json: Value -> string)

  const MAX_LIST := 50
  const MAX_DEPTH := 4
  const REDACTED: Value := Text("[redacted]")

  function ErrorText(rules: Rules, message: string): string { rules.cut(rules.scrub(rules.oneLine(message))) }

  function Shown<T>(items: seq<T>): (r: seq<T>)
    ensures |r| <= |items| && forall i | 0 <= i < |r| :: r[i] == items[i]
  {
    if |items| > MAX_LIST then items[..MAX_LIST] else items
  }

  function RedactDeep(rules: Rules, value: Value, depth: nat): Value
    decreases value
  {
    match value
    case Text(text) => Text(rules.scrub(text))
    case Failure(message) => Text(ErrorText(rules, message))
    case List(items) =>
      if depth >= MAX_DEPTH then Text("[nested]")
      else
        var shown := Shown(items);
        List(seq(|shown|, i requires 0 <= i < |shown| => RedactDeep(rules, shown[i], depth + 1)))
    case Object(fields) =>
      if depth >= MAX_DEPTH then Text("[nested]")
      else Object(seq(|fields|, i requires 0 <= i < |fields| =>
             Field(fields[i].name, if rules.isSecret(fields[i].name) then REDACTED
                 else RedactDeep(rules, fields[i].value, depth + 1))))
    case _ => value
  }

  predicate Flat(v: Value) { v.Text? || v.Number? }

  /** A field's value on the line; Undefined leaves it out. */
  function CleanValue(rules: Rules, value: Value): Value {
    match value
    case Text(text) => Text(rules.cut(rules.scrub(text)))
    case Failure(message) => Text(ErrorText(rules, message))
    case List(items) =>
      if forall i | 0 <= i < |items| :: Flat(items[i]) then
        var shown := Shown(items);
        List(seq(|shown|, i requires 0 <= i < |shown| => if shown[i].Text?
            then Text(rules.cut(rules.scrub(shown[i].text))) else shown[i]))
      else Text(rules.cut(rules.json(RedactDeep(rules, value, 0))))
    case Object(_) => Text(rules.cut(rules.json(RedactDeep(rules, value, 0))))
    case _ => value
  }

  predicate Written(rules: Rules, f: Field) {
    f.name != "event" && f.name != "level" && !CleanValue(rules, f.value).Undefined?
  }

  function WrittenField(rules: Rules, f: Field): Field {
    var clean := CleanValue(rules, f.value);
    Field(f.name, if rules.isSecret(f.name) && !clean.Null? then REDACTED else clean)
  }

  /** The line's fields after its event and level. */
  function LogLine(rules: Rules, fields: seq<Field>): seq<Field> {
    if fields == [] then []
    else
      var last := fields[|fields| - 1];
      LogLine(rules, fields[..|fields| - 1]) + if Written(rules, last) then [WrittenField(rules, last)] else []
  }

  /** The loop that builds it. */
  method BuildLine(rules: Rules, fields: seq<Field>) returns (line: seq<Field>)
    ensures line == LogLine(rules, fields)
  {
    line := [];
    for k := 0 to |fields|
      invariant line == LogLine(rules, fields[..k])
    {
      assert fields[..k + 1][..k] == fields[..k];
      var name := fields[k].name;
      if name == "event" || name == "level" { continue; }
      var clean := CleanValue(rules, fields[k].value);
      if clean.Undefined? { continue; }
      line := line + [Field(name, if rules.isSecret(name) && !clean.Null? then REDACTED else clean)];
    }
    assert fields[..|fields|] == fields;
  }

  // ----- nothing secret gets through ----------------------------------------------

  /** The same but for what is under secret names, at any depth. */
  predicate Alike(rules: Rules, a: Value, b: Value)
    decreases a
  {
    match a
    case List(items) =>
      b.List? && |b.items| == |items| && forall i | 0 <= i < |items| :: Alike(rules, items[i], b.items[i])
    case Object(fields) =>
      b.Object? && |b.fields| == |fields|
      && forall i | 0 <= i < |fields| ::
           fields[i].name == b.fields[i].name
               && (rules.isSecret(fields[i].name) || Alike(rules, fields[i].value, b.fields[i].value))
    case _ => a == b
  }

  predicate Present(v: Value) { !v.Undefined? && !v.Null? }

  /** The same at the top too: a secret-named field may hold any two values but null and undefined, which show. */
  predicate AlikeField(rules: Rules, f: Field, g: Field) {
    && f.name == g.name
    && if rules.isSecret(f.name) then f.value == g.value || (Present(f.value) && Present(g.value))
        else Alike(rules, f.value, g.value)
  }

  lemma {:induction false} RedactHides(rules: Rules, a: Value, b: Value, depth: nat)
    requires Alike(rules, a, b)
    ensures RedactDeep(rules, a, depth) == RedactDeep(rules, b, depth)
    decreases a
  {
    match a
    case List(items) =>
      if depth < MAX_DEPTH {
        forall i | 0 <= i < |Shown(items)|
          ensures RedactDeep(rules, items[i], depth + 1) == RedactDeep(rules, b.items[i], depth + 1)
        {
          RedactHides(rules, items[i], b.items[i], depth + 1);
        }
        assert RedactDeep(rules, a, depth).items == RedactDeep(rules, b, depth).items;
      }
    case Object(fields) =>
      if depth < MAX_DEPTH {
        forall i | 0 <= i < |fields| && !rules.isSecret(fields[i].name)
          ensures RedactDeep(rules, fields[i].value, depth + 1) == RedactDeep(rules, b.fields[i].value, depth + 1)
        {
          RedactHides(rules, fields[i].value, b.fields[i].value, depth + 1);
        }
        assert RedactDeep(rules, a, depth).fields == RedactDeep(rules, b, depth).fields;
      }
    case _ =>
  }

  lemma FlatAlike(rules: Rules, a: Value, b: Value)
    requires Alike(rules, a, b)
    ensures Flat(a) == Flat(b) && (Flat(a) ==> a == b)
  {
  }

  lemma CleanHides(rules: Rules, a: Value, b: Value)
    requires Alike(rules, a, b)
    ensures CleanValue(rules, a) == CleanValue(rules, b)
  {
    RedactHides(rules, a, b, 0);
    if a.List? {
      forall i | 0 <= i < |a.items|
        ensures Flat(a.items[i]) == Flat(b.items[i]) && (Flat(a.items[i]) ==> a.items[i] == b.items[i])
      {
        FlatAlike(rules, a.items[i], b.items[i]);
      }
      if forall i | 0 <= i < |a.items| :: Flat(a.items[i]) {
        assert a.items == b.items;
      }
    }
  }

  /** A line does not depend on what is under secret-named fields, at any depth, null and undefined at the top apart. */
  lemma {:induction false} LineHidesSecrets(rules: Rules, fields: seq<Field>, others: seq<Field>)
    requires |fields| == |others| && forall i | 0 <= i < |fields| :: AlikeField(rules, fields[i], others[i])
    ensures LogLine(rules, fields) == LogLine(rules, others)
    decreases |fields|
  {
    if fields != [] {
      var n := |fields| - 1;
      LineHidesSecrets(rules, fields[..n], others[..n]);
      var f, g := fields[n], others[n];
      assert AlikeField(rules, f, g);
      if !rules.isSecret(f.name) {
        CleanHides(rules, f.value, g.value);
      }
    }
  }

  // ----- and everything else does ---------------------------------------------------

  /** The fields a line is made of, in order: all but those named like its own, and those left undefined. */
  function Ordinary(fields: seq<Field>): seq<Field> {
    if fields == [] then []
    else
      var last := fields[|fields| - 1];
      Ordinary(fields[..|fields| - 1])
      + if last.name in {"event", "level"} || last.value == Undefined then [] else [last]
  }

  /** How a text is shown: scrubbed, then cut; an error's message is put on one line first. */
  predicate ShowsText(rules: Rules, text: string, shown: Value) { shown == Text(rules.cut(rules.scrub(text))) }

  /** How a list of texts and numbers is shown: its first 50, each text scrubbed and cut. */
  predicate ShowsList(rules: Rules, items: seq<Value>, shown: Value) {
    && shown.List? && |shown.items| == (if |items| <= 50 then |items| else 50)
    && forall i | 0 <= i < |shown.items| ::
         if items[i].Text? then ShowsText(rules, items[i].text, shown.items[i]) else shown.items[i] == items[i]
  }

  /** What the line shows of a field. */
  ghost predicate Shows(rules: Rules, f: Field, shown: Value) {
    if rules.isSecret(f.name) then shown == if f.value == Null then Null else Text("[redacted]")
    else match f.value
      case Text(text) => ShowsText(rules, text, shown)
      case Failure(message) => ShowsText(rules, rules.oneLine(message), shown)
      case List(items) =>
        if forall i | 0 <= i < |items| :: items[i].Text? || items[i].Number? then ShowsList(rules, items, shown)
        else ShowsNested(rules, f.value, shown)
      case Object(_) => ShowsNested(rules, f.value, shown)
      case _ => shown == f.value
  }

  /** A nested value is shown as JSON of a redacted and scrubbed copy, cut. */
  ghost predicate ShowsNested(rules: Rules, value: Value, shown: Value) {
    exists copy :: shown == Text(rules.cut(rules.json(copy))) && Copies(rules, value, copy, 0)
  }

  /**
   * A copy with secret-named fields redacted and every text scrubbed, lists cut at
   * their 50th item, and what is nested deeper than four levels left out.
   */
  predicate Copies(rules: Rules, value: Value, copy: Value, depth: nat)
    decreases value
  {
    match value
    case Text(text) => copy == Text(rules.scrub(text))
    case Failure(message) => ShowsText(rules, rules.oneLine(message), copy)
    case List(items) =>
      if depth >= 4 then copy == Text("[nested]")
      else
        && copy.List? && |copy.items| == (if |items| <= 50 then |items| else 50)
        && forall i | 0 <= i < |copy.items| :: Copies(rules, items[i], copy.items[i], depth + 1)
    case Object(fields) =>
      if depth >= 4 then copy == Text("[nested]")
      else
        && copy.Object? && |copy.fields| == |fields|
        && forall i | 0 <= i < |fields| ::
             && copy.fields[i].name == fields[i].name
             && if rules.isSecret(fields[i].name) then copy.fields[i].value == Text("[redacted]")
                else Copies(rules, fields[i].value, copy.fields[i].value, depth + 1)
    case _ => copy == value
  }

  lemma {:induction false} RedactDeepCopies(rules: Rules, value: Value, depth: nat)
    ensures Copies(rules, value, RedactDeep(rules, value, depth), depth)
    decreases value
  {
    match value
    case List(items) =>
      if depth < 4 {
        forall i | 0 <= i < |Shown(items)|
          ensures Copies(rules, items[i], RedactDeep(rules, items[i], depth + 1), depth + 1)
        {
          RedactDeepCopies(rules, items[i], depth + 1);
        }
      }
    case Object(fields) =>
      if depth < 4 {
        forall i | 0 <= i < |fields|
          ensures Copies(rules, fields[i].value, RedactDeep(rules, fields[i].value, depth + 1), depth + 1)
        {
          RedactDeepCopies(rules, fields[i].value, depth + 1);
        }
      }
    case _ =>
  }

  lemma FieldShows(rules: Rules, f: Field)
    requires f.name != "event" && f.name != "level" && f.value != Undefined
    ensures Written(rules, f) && WrittenField(rules, f).name == f.name && Shows(rules, f, WrittenField(rules, f).value)
  {
    RedactDeepCopies(rules, f.value, 0);
  }

  /** A line has every ordinary field, in order, under its name, and shows its value as it should. */
  lemma {:induction false} LineShowsTheRest(rules: Rules, fields: seq<Field>)
    ensures var line, shown := LogLine(rules, fields), Ordinary(fields);
            && |line| == |shown|
            && forall i | 0 <= i < |line| :: line[i].name == shown[i].name && Shows(rules, shown[i], line[i].value)
    decreases |fields|
  {
    if fields != [] {
      var last := fields[|fields| - 1];
      LineShowsTheRest(rules, fields[..|fields| - 1]);
      if last.name != "event" && last.name != "level" && last.value != Undefined { FieldShows(rules, last); }
    }
  }

  // ----- and none is left ------------------------------------------------------------

  /** Every secret-named field in it, at any depth, reads "[redacted]". */
  predicate Redacted(rules: Rules, v: Value)
    decreases v
  {
    match v
    case List(items) => forall i | 0 <= i < |items| :: Redacted(rules, items[i])
    case Object(fields) =>
      forall i | 0 <= i < |fields| :: if rules.isSecret(fields[i].name) then fields[i].value == REDACTED
          else Redacted(rules, fields[i].value)
    case _ => true
  }

  lemma {:induction false} RedactDeepRedacts(rules: Rules, v: Value, depth: nat)
    ensures Redacted(rules, RedactDeep(rules, v, depth))
    decreases v
  {
    match v
    case List(items) =>
      forall i | 0 <= i < |Shown(items)| ensures Redacted(rules, RedactDeep(rules, items[i], depth + 1)) {
        RedactDeepRedacts(rules, items[i], depth + 1);
      }
    case Object(fields) =>
      forall i | 0 <= i < |fields| ensures Redacted(rules, RedactDeep(rules, fields[i].value, depth + 1)) {
        RedactDeepRedacts(rules, fields[i].value, depth + 1);
      }
    case _ =>
  }
}
