/**
  * Bounded redaction of diagnostics (packages/observability/src/diagnostics/index.ts) on arbitrary object
  * graphs: shared and circular references included. The key pattern and the text scrubber are parameters.
  */
module Redaction {
  import opened Basics

  const MAX_DEPTH: nat := 20
  const MAX_NODES: nat := 10_000
  const MAX_ARRAY_ITEMS: nat := 1_000
  const MAX_OBJECT_KEYS: nat := 1_000
  const MAX_STRING_LENGTH: nat := 65_536

  const PROTO := "__proto__"
  const TRUNCATED_KEYS := "__truncatedKeys"

  /** A value: a string, another primitive, or a reference to an object. */
  datatype Value = Text(text: string) | Other(tag: int) | Ref(id: nat)

  datatype Entry = Entry(key: string, value: Value)

  datatype Object = List(items: seq<Value>) | Record(entries: seq<Entry>)

  type Heap = map<nat, Object>

  predicate Known(heap: Heap, v: Value) {
    v.Ref? ==> v.id in heap
  }

  /** Every reference leads to an object, and no object repeats a key. */
  ghost predicate Closed(heap: Heap) {
    forall id :: id in heap ==>
      match heap[id]
      case List(items) => forall i :: 0 <= i < |items| ==> Known(heap, items[i])
      case Record(entries) =>
        && (forall i :: 0 <= i < |entries| ==> Known(heap, entries[i].value))
        && (forall i, j :: 0 <= i < j < |entries| ==> entries[i].key != entries[j].key)
  }

  datatype Scrubbed = Scrubbed(text: string, matched: bool)

  datatype Rules = Rules(sensitive: string -> bool, scrub: string -> Scrubbed)

  /** The scrubber changes a text only where it reports a match, and the marker for dropped keys is not sensitive. */
  ghost predicate RulesOk(rules: Rules) {
    (forall s :: !rules.scrub(s).matched ==> rules.scrub(s).text == s) && !rules.sensitive(TRUNCATED_KEYS)
  }

  datatype Field = Field(key: string, value: Out)

  datatype Out =
    | OutText(text: string)
    | OutOther(tag: int)
    | OutDropped(count: nat)
    | OutList(items: seq<Out>)
    | OutRecord(fields: seq<Field>)

  datatype State = State(nodes: nat, applied: bool, seen: set<nat>)

  datatype Result = Result(out: Out, state: State)

  datatype Items = Items(outs: seq<Out>, state: State)

  datatype Fields = Fields(fields: seq<Field>, state: State)

  // ---- the redaction as a function of the state it threads ----

  function RedactString(rules: Rules, s: string, st: State): Result {
    var bounded := if |s| > MAX_STRING_LENGTH then s[..MAX_STRING_LENGTH] + "[TRUNCATED:STRING]" else s;
    var scrubbed := rules.scrub(bounded);
    Result(OutText(scrubbed.text), st.(applied := st.applied || bounded != s || scrubbed.matched))
  }

  /** `result[key] = value`; assigning "__proto__" creates no field. */
  function Assign(fields: seq<Field>, key: string, out: Out): seq<Field> {
    if key == PROTO then fields
    else if fields == [] then [Field(key, out)]
    else if fields[|fields| - 1].key == key then fields[..|fields| - 1] + [Field(key, out)]
    else Assign(fields[..|fields| - 1], key, out) + [fields[|fields| - 1]]
  }

  function Kept<T>(xs: seq<T>, limit: nat): seq<T> {
    if |xs| <= limit then xs else xs[..limit]
  }

  function Rank(depth: nat): nat {
    if depth <= MAX_DEPTH then MAX_DEPTH - depth else 0
  }

  function Redact(rules: Rules, heap: Heap, v: Value, st: State, depth: nat, key: Option<string>): Result
    requires Closed(heap) && Known(heap, v)
    decreases Rank(depth), 0
  {
    if key.Some? && rules.sensitive(key.value) then Result(OutText("[REDACTED]"), st.(applied := true))
    else if v.Text? then RedactString(rules, v.text, st)
    else if v.Other? then Result(OutOther(v.tag), st)
    else if depth >= MAX_DEPTH then Result(OutText("[TRUNCATED:DEPTH]"), st.(applied := true))
    else
      var counted := st.(nodes := st.nodes + 1);
      if counted.nodes > MAX_NODES then Result(OutText("[TRUNCATED:NODES]"), counted.(applied := true))
      else if v.id in st.seen then Result(OutText("[CIRCULAR]"), counted.(applied := true))
      else RedactObject(rules, heap, heap[v.id], counted.(seen := counted.seen + {v.id}), depth)
  }

  ghost predicate Inside(heap: Heap, target: Object) {
    match target
    case List(items) => forall i :: 0 <= i < |items| ==> Known(heap, items[i])
    case Record(entries) =>
      && (forall i :: 0 <= i < |entries| ==> Known(heap, entries[i].value))
      && (forall i, j :: 0 <= i < j < |entries| ==> entries[i].key != entries[j].key)
  }

  function RedactObject(rules: Rules, heap: Heap, target: Object, st: State, depth: nat): Result
    requires Closed(heap) && Inside(heap, target) && depth < MAX_DEPTH
    decreases Rank(depth + 1), MAX_ARRAY_ITEMS + MAX_OBJECT_KEYS + 1
  {
    match target
    case List(items) =>
      var inner := RedactItems(rules, heap, Kept(items, MAX_ARRAY_ITEMS), st, depth + 1);
      if |items| > MAX_ARRAY_ITEMS then
        Result(OutList(inner.outs + [OutDropped(|items| - MAX_ARRAY_ITEMS)]), inner.state.(applied := true))
      else Result(OutList(inner.outs), inner.state)
    case Record(entries) =>
      var inner := RedactEntries(rules, heap, Kept(entries, MAX_OBJECT_KEYS), st, depth + 1);
      if |entries| > MAX_OBJECT_KEYS then
        var fields := Assign(inner.fields, TRUNCATED_KEYS, OutDropped(|entries| - MAX_OBJECT_KEYS));
        Result(OutRecord(fields), inner.state.(applied := true))
      else Result(OutRecord(inner.fields), inner.state)
  }

  function RedactItems(rules: Rules, heap: Heap, items: seq<Value>, st: State, depth: nat): Items
    requires Closed(heap) && Inside(heap, List(items)) && |items| <= MAX_ARRAY_ITEMS
    decreases Rank(depth), |items|
  {
    if items == [] then Items([], st)
    else
      var inner := RedactItems(rules, heap, items[..|items| - 1], st, depth);
      var last := Redact(rules, heap, items[|items| - 1], inner.state, depth, None);
      Items(inner.outs + [last.out], last.state)
  }

  function RedactEntries(rules: Rules, heap: Heap, entries: seq<Entry>, st: State, depth: nat): Fields
    requires Closed(heap) && Inside(heap, Record(entries)) && |entries| <= MAX_OBJECT_KEYS
    decreases Rank(depth), |entries|
  {
    if entries == [] then Fields([], st)
    else
      var inner := RedactEntries(rules, heap, entries[..|entries| - 1], st, depth);
      var last := entries[|entries| - 1];
      var redacted := Redact(rules, heap, last.value, inner.state, depth, Some(last.key));
      Fields(Assign(inner.fields, last.key, redacted.out), redacted.state)
  }

  lemma PrefixIsInside(heap: Heap, entries: seq<Entry>, k: nat)
    requires Inside(heap, Record(entries)) && k <= |entries|
    ensures Inside(heap, Record(entries[..k]))
    ensures forall i :: 0 <= i < |entries| ==> Known(heap, entries[i].value)
  {
  }

  lemma ItemsPrefixIsInside(heap: Heap, items: seq<Value>, k: nat)
    requires Inside(heap, List(items)) && k <= |items|
    ensures Inside(heap, List(items[..k]))
    ensures forall i :: 0 <= i < |items| ==> Known(heap, items[i])
  {
  }

  lemma KeptItemsAreInside(heap: Heap, items: seq<Value>, limit: nat)
    requires Inside(heap, List(items))
    ensures Inside(heap, List(Kept(items, limit))) && Inside(heap, List([]))
  {
  }

  lemma KeptIsInside(heap: Heap, entries: seq<Entry>, limit: nat)
    requires Inside(heap, Record(entries))
    ensures Inside(heap, Record(Kept(entries, limit))) && Inside(heap, Record([]))
  {
  }

  // ---- the redaction as the source runs it ----

  class RedactionState {
    var nodes: nat
    var applied: bool
    var seen: set<nat>

    constructor ()
      ensures Snapshot() == State(0, false, {})
    {
      nodes, applied, seen := 0, false, {};
    }

    function Snapshot(): State
      reads this
    {
      State(nodes, applied, seen)
    }
  }

  method RedactText(rules: Rules, value: string, state: RedactionState) returns (out: Out)
    modifies state
    ensures Result(out, state.Snapshot()) == RedactString(rules, value, old(state.Snapshot()))
    ensures RulesOk(rules) && !state.applied ==> out == OutText(value)
  {
    var bounded := if |value| > MAX_STRING_LENGTH then value[..MAX_STRING_LENGTH] + "[TRUNCATED:STRING]" else value;
    if bounded != value {
      state.applied := true;
    }
    var result := rules.scrub(bounded);
    if result.matched {
      state.applied := true;
    }
    out := OutText(result.text);
  }

  method RedactValue(rules: Rules, heap: Heap, value: Value, state: RedactionState, depth: nat, key: Option<string>)
    returns (out: Out)
    requires Closed(heap) && Known(heap, value)
    modifies state
    ensures Result(out, state.Snapshot()) == Redact(rules, heap, value, old(state.Snapshot()), depth, key)
    decreases Rank(depth), 0
  {
    if key.Some? && rules.sensitive(key.value) {
      state.applied := true;
      return OutText("[REDACTED]");
    }
    if value.Text? {
      out := RedactText(rules, value.text, state);
      return;
    }
    if value.Other? {
      return OutOther(value.tag);
    }
    if depth >= MAX_DEPTH {
      state.applied := true;
      return OutText("[TRUNCATED:DEPTH]");
    }
    state.nodes := state.nodes + 1;
    if state.nodes > MAX_NODES {
      state.applied := true;
      return OutText("[TRUNCATED:NODES]");
    }
    if value.id in state.seen {
      state.applied := true;
      return OutText("[CIRCULAR]");
    }
    state.seen := state.seen + {value.id};
    if heap[value.id].List? {
      out := RedactArray(rules, heap, heap[value.id].items, state, depth);
    } else {
      out := RedactRecordObject(rules, heap, heap[value.id].entries, state, depth);
    }
  }

  method RedactArray(rules: Rules, heap: Heap, items: seq<Value>, state: RedactionState, depth: nat) returns (out: Out)
    requires Closed(heap) && Inside(heap, List(items)) && depth < MAX_DEPTH
    modifies state
    ensures Result(out, state.Snapshot()) == RedactObject(rules, heap, List(items), old(state.Snapshot()), depth)
    decreases Rank(depth + 1), 1
  {
    hide Closed, Inside, Redact;
    var kept := Kept(items, MAX_ARRAY_ITEMS);
    var outs: seq<Out> := [];
    KeptItemsAreInside(heap, items, MAX_ARRAY_ITEMS);
    for i := 0 to |kept|
      invariant Inside(heap, List(kept[..i]))
      invariant Items(outs, state.Snapshot()) == RedactItems(rules, heap, kept[..i], old(state.Snapshot()), depth + 1)
    {
      assert kept[..i + 1][..i] == kept[..i];
      ItemsPrefixIsInside(heap, kept, i + 1);
      var item := RedactValue(rules, heap, kept[i], state, depth + 1, None);
      outs := outs + [item];
    }
    assert kept[..|kept|] == kept;
    if |items| > MAX_ARRAY_ITEMS {
      outs := outs + [OutDropped(|items| - MAX_ARRAY_ITEMS)];
      state.applied := true;
    }
    out := OutList(outs);
  }

  method RedactRecordObject(rules: Rules, heap: Heap, entries: seq<Entry>, state: RedactionState, depth: nat)
    returns (out: Out)
    requires Closed(heap) && Inside(heap, Record(entries)) && depth < MAX_DEPTH
    modifies state
    ensures Result(out, state.Snapshot()) == RedactObject(rules, heap, Record(entries), old(state.Snapshot()), depth)
    decreases Rank(depth + 1), 1
  {
    hide Closed, Inside, Redact, Assign;
    var kept := Kept(entries, MAX_OBJECT_KEYS);
    var fields: seq<Field> := [];
    KeptIsInside(heap, entries, MAX_OBJECT_KEYS);
    for i := 0 to |kept|
      invariant Inside(heap, Record(kept[..i]))
      invariant Fields(fields, state.Snapshot()) ==
                RedactEntries(rules, heap, kept[..i], old(state.Snapshot()), depth + 1)
    {
      assert kept[..i + 1][..i] == kept[..i];
      PrefixIsInside(heap, kept, i + 1);
      var entry := RedactValue(rules, heap, kept[i].value, state, depth + 1, Some(kept[i].key));
      fields := Assign(fields, kept[i].key, entry);
    }
    assert kept[..|kept|] == kept;
    if |entries| > MAX_OBJECT_KEYS {
      fields := Assign(fields, TRUNCATED_KEYS, OutDropped(|entries| - MAX_OBJECT_KEYS));
      state.applied := true;
    }
    out := OutRecord(fields);
  }

  /** `redactRecord`. */
  method RedactRecord(rules: Rules, heap: Heap, record: nat) returns (redacted: Out, applied: bool)
    requires Closed(heap) && record in heap
    ensures redacted.OutRecord? && (redacted, applied) == Redacted(rules, heap, record)
  {
    var state := new RedactionState();
    var out := RedactValue(rules, heap, Ref(record), state, 0, None);
    redacted := if out.OutRecord? then out else OutRecord([Field("value", out)]);
    applied := state.applied;
  }

  function Redacted(rules: Rules, heap: Heap, record: nat): (Out, bool)
    requires Closed(heap) && record in heap
  {
    var r := Redact(rules, heap, Ref(record), State(0, false, {}), 0, None);
    (if r.out.OutRecord? then r.out else OutRecord([Field("value", r.out)]), r.state.applied)
  }

  // ---- what the output satisfies ----

  /** Containers are nested at most `levels` deep. */
  ghost predicate NestsAtMost(out: Out, levels: nat) {
    match out
    case OutList(items) => levels > 0 && forall i :: 0 <= i < |items| ==> NestsAtMost(items[i], levels - 1)
    case OutRecord(fields) => levels > 0 && forall i :: 0 <= i < |fields| ==> NestsAtMost(fields[i].value, levels - 1)
    case _ => true
  }

  /** Every field under a sensitive key is replaced. */
  ghost predicate Hidden(rules: Rules, out: Out) {
    match out
    case OutList(items) => forall i :: 0 <= i < |items| ==> Hidden(rules, items[i])
    case OutRecord(fields) =>
      forall i :: 0 <= i < |fields| ==>
        Hidden(rules, fields[i].value) && (rules.sensitive(fields[i].key) ==> fields[i].value == OutText("[REDACTED]"))
    case _ => true
  }

  function Arity(out: Out): nat {
    match out
    case OutList(items) => |items|
    case OutRecord(fields) => |fields|
    case _ => 0
  }

  function Child(out: Out, i: nat): (child: Out)
    requires i < Arity(out)
    ensures child < out
  {
    if out.OutList? then out.items[i] else out.fields[i].value
  }

  /** How many lists and records an output holds. */
  function Containers(out: Out): nat
    decreases out, 1, 0
  {
    if out.OutList? || out.OutRecord? then 1 + ContainersBelow(out, Arity(out)) else 0
  }

  function ContainersBelow(out: Out, k: nat): nat
    requires k <= Arity(out)
    decreases out, 0, k
  {
    if k == 0 then 0 else ContainersBelow(out, k - 1) + Containers(Child(out, k - 1))
  }

  ghost predicate HasKey(entries: seq<Entry>, key: string) {
    exists i :: 0 <= i < |entries| && entries[i].key == key
  }

  ghost predicate HasField(fields: seq<Field>, key: string) {
    exists i :: 0 <= i < |fields| && fields[i].key == key
  }

  /** The output says exactly what the value says, but for members called "__proto__". */
  ghost predicate Mirrors(heap: Heap, v: Value, out: Out)
    decreases out
  {
    match v
    case Text(text) => out == OutText(text)
    case Other(tag) => out == OutOther(tag)
    case Ref(id) =>
      id in heap &&
      match (heap[id], out)
      case (List(items), OutList(outs)) =>
        |outs| == |items| && forall i :: 0 <= i < |items| ==> Mirrors(heap, items[i], outs[i])
      case (Record(entries), OutRecord(fields)) =>
        && (forall key :: HasField(fields, key) <==> key != PROTO && HasKey(entries, key))
        && (forall i, j :: 0 <= i < |entries| && 0 <= j < |fields| && entries[i].key == fields[j].key ==>
              Mirrors(heap, entries[i].value, fields[j].value))
      case _ => false
  }

  function Capped(nodes: nat): nat {
    if nodes <= MAX_NODES then nodes else MAX_NODES
  }

  // ---- fields ----

  ghost predicate DistinctFields(fields: seq<Field>) {
    forall i, j :: 0 <= i < j < |fields| ==> fields[i].key != fields[j].key
  }

  lemma {:induction false} AssignCounts(fields: seq<Field>, key: string, out: Out)
    ensures var r := Assign(fields, key, out);
            ContainersBelow(OutRecord(r), |r|) <= ContainersBelow(OutRecord(fields), |fields|) + Containers(out)
  {
    hide Containers, ContainersBelow;
    if key != PROTO {
      if fields == [] {
        FieldAdded([], Field(key, out));
        assert [] + [Field(key, out)] == [Field(key, out)];
      } else {
        var front, last := fields[..|fields| - 1], fields[|fields| - 1];
        assert fields == front + [last];
        FieldAdded(front, last);
        if last.key == key {
          FieldAdded(front, Field(key, out));
        } else {
          AssignCounts(front, key, out);
          FieldAdded(Assign(front, key, out), last);
        }
      }
    }
  }

  lemma {:induction false} AssignedFields(fields: seq<Field>, key: string, out: Out)
    requires DistinctFields(fields)
    ensures var r := Assign(fields, key, out);
            && DistinctFields(r)
            && (forall i :: 0 <= i < |r| ==> (r[i] in fields && r[i].key != key) || r[i] == Field(key, out) || key == PROTO)
            && (forall k :: HasField(r, k) <==> HasField(fields, k) || (k == key && key != PROTO))
  {
    if key != PROTO && fields == [] {
      assert HasField([Field(key, out)], key) by { assert [Field(key, out)][0].key == key; }
    } else if key != PROTO {
      var front, last := fields[..|fields| - 1], fields[|fields| - 1];
      assert fields == front + [last];
      FieldAdded(front, last);
      if last.key == key {
        FieldAdded(front, Field(key, out));
      } else {
        AssignedFields(front, key, out);
        var r := Assign(front, key, out);
        assert !HasField(front, last.key) by { assert forall i :: 0 <= i < |front| ==> front[i].key != last.key; }
        assert !HasField(r, last.key);
        assert forall i :: 0 <= i < |r| ==> r[i].key != last.key;
        FieldAdded(r, last);
      }
    }
  }

  lemma AssignMeans(fields: seq<Field>, key: string, out: Out)
    requires DistinctFields(fields)
    ensures var r := Assign(fields, key, out);
            && DistinctFields(r)
            && (forall i :: 0 <= i < |r| ==> (r[i] in fields && r[i].key != key) || r[i] == Field(key, out) || key == PROTO)
            && (key == PROTO ==> r == fields)
            && (forall k :: HasField(r, k) <==> HasField(fields, k) || (k == key && key != PROTO))
            && ContainersBelow(OutRecord(r), |r|) <= ContainersBelow(OutRecord(fields), |fields|) + Containers(out)
  {
    AssignedFields(fields, key, out);
    AssignCounts(fields, key, out);
  }

  lemma FieldAdded(front: seq<Field>, last: Field)
    ensures forall k :: HasField(front + [last], k) <==> HasField(front, k) || k == last.key
    ensures ContainersBelow(OutRecord(front + [last]), |front| + 1) ==
            ContainersBelow(OutRecord(front), |front|) + Containers(last.value)
  {
    var all := front + [last];
    forall k ensures HasField(all, k) <==> HasField(front, k) || k == last.key {
      assert all[|front|] == last;
      if HasField(front, k) {
        var i :| 0 <= i < |front| && front[i].key == k;
        assert all[i].key == k;
      }
    }
    LaterChildrenDoNotCount(OutRecord(front), OutRecord(all), |front|);
  }

  lemma {:induction false} LaterChildrenDoNotCount(a: Out, b: Out, k: nat)
    requires k <= Arity(a) && k <= Arity(b)
    requires forall i :: 0 <= i < k ==> Child(a, i) == Child(b, i)
    ensures ContainersBelow(a, k) == ContainersBelow(b, k)
    decreases k
  {
    if k > 0 {
      LaterChildrenDoNotCount(a, b, k - 1);
    }
  }

  lemma ItemAdded(front: seq<Out>, last: Out)
    ensures ContainersBelow(OutList(front + [last]), |front| + 1) ==
            ContainersBelow(OutList(front), |front|) + Containers(last)
  {
    LaterChildrenDoNotCount(OutList(front), OutList(front + [last]), |front|);
  }

  // ---- the induction ----

  ghost predicate Good(rules: Rules, heap: Heap, v: Value, st: State, r: Result, depth: nat) {
    && NestsAtMost(r.out, Rank(depth)) && Hidden(rules, r.out)
    && Containers(r.out) + Capped(st.nodes) <= Capped(r.state.nodes)
    && (st.applied ==> r.state.applied)
    && (!r.state.applied ==> Mirrors(heap, v, r.out))
  }

  ghost predicate ItemsGood(rules: Rules, heap: Heap, items: seq<Value>, st: State, r: Items, depth: nat) {
    && |r.outs| == |items|
    && (forall i :: 0 <= i < |r.outs| ==> NestsAtMost(r.outs[i], Rank(depth)) && Hidden(rules, r.outs[i]))
    && ContainersBelow(OutList(r.outs), |r.outs|) + Capped(st.nodes) <= Capped(r.state.nodes)
    && (st.applied ==> r.state.applied)
    && (!r.state.applied ==> forall i :: 0 <= i < |items| ==> Mirrors(heap, items[i], r.outs[i]))
  }

  ghost predicate FieldOk(rules: Rules, f: Field, depth: nat) {
    && NestsAtMost(f.value, Rank(depth)) && Hidden(rules, f.value)
    && (rules.sensitive(f.key) ==> f.value == OutText("[REDACTED]"))
  }

  ghost predicate SameFields(heap: Heap, entries: seq<Entry>, fields: seq<Field>) {
    && (forall key :: HasField(fields, key) <==> key != PROTO && HasKey(entries, key))
    && (forall i, j :: 0 <= i < |entries| && 0 <= j < |fields| && entries[i].key == fields[j].key ==>
          Mirrors(heap, entries[i].value, fields[j].value))
  }

  ghost predicate EntriesGood(rules: Rules, heap: Heap, entries: seq<Entry>, st: State, r: Fields, depth: nat) {
    && DistinctFields(r.fields)
    && (forall i :: 0 <= i < |r.fields| ==> FieldOk(rules, r.fields[i], depth))
    && ContainersBelow(OutRecord(r.fields), |r.fields|) + Capped(st.nodes) <= Capped(r.state.nodes)
    && (st.applied ==> r.state.applied)
    && (!r.state.applied ==> SameFields(heap, entries, r.fields))
  }

  lemma {:induction false} RedactIsGood(rules: Rules, heap: Heap, v: Value, st: State, depth: nat, key: Option<string>)
    requires RulesOk(rules) && Closed(heap) && Known(heap, v)
    ensures Good(rules, heap, v, st, Redact(rules, heap, v, st, depth, key), depth)
    ensures key.Some? && rules.sensitive(key.value) ==>
              Redact(rules, heap, v, st, depth, key).out == OutText("[REDACTED]")
    decreases Rank(depth), 0
  {
    hide RedactObject, Closed, Inside;
    var counted := st.(nodes := st.nodes + 1);
    if !(key.Some? && rules.sensitive(key.value)) && v.Ref? && depth < MAX_DEPTH && counted.nodes <= MAX_NODES
       && v.id !in st.seen {
      assert Inside(heap, heap[v.id]) by { ClosedIsInside(heap, v.id); }
      var entered := counted.(seen := counted.seen + {v.id});
      RedactObjectIsGood(rules, heap, v.id, heap[v.id], entered, depth);
    }
  }

  lemma ClosedIsInside(heap: Heap, id: nat)
    requires Closed(heap) && id in heap
    ensures Inside(heap, heap[id])
  {
  }

  ghost predicate ObjectGood(rules: Rules, heap: Heap, id: nat, st: State, r: Result, depth: nat) {
    && NestsAtMost(r.out, Rank(depth)) && Hidden(rules, r.out)
    && Containers(r.out) + Capped(st.nodes) <= Capped(r.state.nodes) + 1
    && (st.applied ==> r.state.applied)
    && (!r.state.applied ==> Mirrors(heap, Ref(id), r.out))
  }

  lemma ListIsGood(rules: Rules, heap: Heap, id: nat, items: seq<Value>, st: State, inner: Items, r: Result, depth: nat)
    requires id in heap && heap[id] == List(items) && depth < MAX_DEPTH
    requires ItemsGood(rules, heap, Kept(items, MAX_ARRAY_ITEMS), st, inner, depth + 1)
    requires r == if |items| > MAX_ARRAY_ITEMS then
                    Result(OutList(inner.outs + [OutDropped(|items| - MAX_ARRAY_ITEMS)]), inner.state.(applied := true))
                  else Result(OutList(inner.outs), inner.state)
    ensures ObjectGood(rules, heap, id, st, r, depth)
  {
    if |items| > MAX_ARRAY_ITEMS {
      ItemAdded(inner.outs, OutDropped(|items| - MAX_ARRAY_ITEMS));
    }
  }

  lemma RecordIsGood(rules: Rules, heap: Heap, id: nat, entries: seq<Entry>, st: State, inner: Fields, r: Result,
                     depth: nat)
    requires RulesOk(rules) && id in heap && heap[id] == Record(entries) && depth < MAX_DEPTH
    requires EntriesGood(rules, heap, Kept(entries, MAX_OBJECT_KEYS), st, inner, depth + 1)
    requires r == if |entries| > MAX_OBJECT_KEYS then
                    var fields := Assign(inner.fields, TRUNCATED_KEYS, OutDropped(|entries| - MAX_OBJECT_KEYS));
                    Result(OutRecord(fields), inner.state.(applied := true))
                  else Result(OutRecord(inner.fields), inner.state)
    ensures ObjectGood(rules, heap, id, st, r, depth)
  {
    hide Assign;
    if |entries| > MAX_OBJECT_KEYS {
      var dropped := OutDropped(|entries| - MAX_OBJECT_KEYS);
      AssignMeans(inner.fields, TRUNCATED_KEYS, dropped);
      AssignKeepsFieldsOk(rules, inner.fields, TRUNCATED_KEYS, dropped, depth + 1);
    }
  }

  lemma {:induction false} RedactObjectIsGood(rules: Rules, heap: Heap, id: nat, target: Object, st: State, depth: nat)
    requires RulesOk(rules) && Closed(heap) && id in heap && heap[id] == target && Inside(heap, target)
    requires depth < MAX_DEPTH
    ensures ObjectGood(rules, heap, id, st, RedactObject(rules, heap, target, st, depth), depth)
    decreases Rank(depth + 1), MAX_ARRAY_ITEMS + MAX_OBJECT_KEYS + 1
  {
    hide RedactItems, RedactEntries, Closed, ObjectGood, ItemsGood, EntriesGood, Assign, RulesOk;
    var r := RedactObject(rules, heap, target, st, depth);
    match target
    case List(items) =>
      var kept := Kept(items, MAX_ARRAY_ITEMS);
      RedactItemsIsGood(rules, heap, kept, st, depth + 1);
      ListIsGood(rules, heap, id, items, st, RedactItems(rules, heap, kept, st, depth + 1), r, depth);
    case Record(entries) =>
      KeptIsInside(heap, entries, MAX_OBJECT_KEYS);
      var kept := Kept(entries, MAX_OBJECT_KEYS);
      RedactEntriesIsGood(rules, heap, kept, st, depth + 1);
      RecordIsGood(rules, heap, id, entries, st, RedactEntries(rules, heap, kept, st, depth + 1), r, depth);
  }

  lemma {:induction false} RedactItemsIsGood(rules: Rules, heap: Heap, items: seq<Value>, st: State, depth: nat)
    requires RulesOk(rules) && Closed(heap) && Inside(heap, List(items)) && |items| <= MAX_ARRAY_ITEMS
    ensures ItemsGood(rules, heap, items, st, RedactItems(rules, heap, items, st, depth), depth)
    decreases Rank(depth), |items|
  {
    hide Redact, Closed, NestsAtMost, Hidden, Mirrors;
    if items != [] {
      var front, last := items[..|items| - 1], items[|items| - 1];
      var inner := RedactItems(rules, heap, front, st, depth);
      RedactItemsIsGood(rules, heap, front, st, depth);
      RedactIsGood(rules, heap, last, inner.state, depth, None);
      ItemAdded(inner.outs, Redact(rules, heap, last, inner.state, depth, None).out);
    }
  }

  lemma AssignKeepsFieldsOk(rules: Rules, fields: seq<Field>, key: string, out: Out, depth: nat)
    requires DistinctFields(fields) && forall i :: 0 <= i < |fields| ==> FieldOk(rules, fields[i], depth)
    requires FieldOk(rules, Field(key, out), depth)
    ensures forall i :: 0 <= i < |Assign(fields, key, out)| ==> FieldOk(rules, Assign(fields, key, out)[i], depth)
  {
    hide FieldOk, Assign;
    AssignMeans(fields, key, out);
  }

  lemma AssignKeepsSame(heap: Heap, front: seq<Entry>, last: Entry, fields: seq<Field>, out: Out)
    requires DistinctFields(fields) && SameFields(heap, front, fields) && Mirrors(heap, last.value, out)
    requires !HasKey(front, last.key)
    ensures SameFields(heap, front + [last], Assign(fields, last.key, out))
  {
    hide Mirrors, Assign;
    var all, r := front + [last], Assign(fields, last.key, out);
    AssignMeans(fields, last.key, out);
    forall key ensures HasField(r, key) <==> key != PROTO && HasKey(all, key) {
      assert all[|front|] == last;
      if HasKey(front, key) {
        var i :| 0 <= i < |front| && front[i].key == key;
        assert all[i].key == key;
      }
    }
    forall i, j | 0 <= i < |all| && 0 <= j < |r| && all[i].key == r[j].key ensures Mirrors(heap, all[i].value, r[j].value) {
      SameFieldsAt(heap, front, last, fields, out, i, j);
    }
  }

  lemma SameFieldsAt(heap: Heap, front: seq<Entry>, last: Entry, fields: seq<Field>, out: Out, i: nat, j: nat)
    requires DistinctFields(fields) && SameFields(heap, front, fields) && Mirrors(heap, last.value, out)
    requires !HasKey(front, last.key)
    requires i < |front + [last]| && j < |Assign(fields, last.key, out)|
    requires (front + [last])[i].key == Assign(fields, last.key, out)[j].key
    ensures Mirrors(heap, (front + [last])[i].value, Assign(fields, last.key, out)[j].value)
  {
    hide Mirrors, Assign;
    var r := Assign(fields, last.key, out);
    AssignMeans(fields, last.key, out);
    if i < |front| {
      assert front[i].key != last.key;
      assert r[j] in fields;
    } else if last.key == PROTO {
      NoProtoField(heap, front, fields, j);
    }
  }

  lemma NoProtoField(heap: Heap, entries: seq<Entry>, fields: seq<Field>, j: nat)
    requires SameFields(heap, entries, fields) && j < |fields|
    ensures fields[j].key != PROTO
  {
    hide Mirrors;
    assert HasField(fields, fields[j].key);
  }

  lemma {:induction false} RedactEntriesIsGood(rules: Rules, heap: Heap, entries: seq<Entry>, st: State, depth: nat)
    requires RulesOk(rules) && Closed(heap) && Inside(heap, Record(entries)) && |entries| <= MAX_OBJECT_KEYS
    ensures EntriesGood(rules, heap, entries, st, RedactEntries(rules, heap, entries, st, depth), depth)
    decreases Rank(depth), |entries|
  {
    hide Redact, Closed, NestsAtMost, Hidden, Mirrors, Assign, SameFields;
    if entries == [] {
      NothingIsSame(heap);
    } else {
      var front, last := entries[..|entries| - 1], entries[|entries| - 1];
      assert entries == front + [last];
      var inner := RedactEntries(rules, heap, front, st, depth);
      RedactEntriesIsGood(rules, heap, front, st, depth);
      var redacted := Redact(rules, heap, last.value, inner.state, depth, Some(last.key));
      RedactIsGood(rules, heap, last.value, inner.state, depth, Some(last.key));
      AssignMeans(inner.fields, last.key, redacted.out);
      AssignKeepsFieldsOk(rules, inner.fields, last.key, redacted.out, depth);
      if !redacted.state.applied {
        AssignKeepsSame(heap, front, last, inner.fields, redacted.out);
      }
    }
  }

  lemma NothingIsSame(heap: Heap)
    ensures SameFields(heap, [], [])
  {
  }

  /** A list too long is redacted as its first 1,000 items, with the number of the dropped ones after them. */
  lemma LongListsKeepTheirFront(rules: Rules, heap: Heap, items: seq<Value>, st: State, depth: nat)
    requires Closed(heap) && Inside(heap, List(items)) && depth < MAX_DEPTH && |items| > 1_000
    ensures Inside(heap, List(items[..1_000]))
    ensures var whole := RedactObject(rules, heap, List(items), st, depth);
            var front := RedactObject(rules, heap, List(items[..1_000]), st, depth);
            && front.out.OutList? && whole.out == OutList(front.out.items + [OutDropped(|items| - 1_000)])
            && whole.state == front.state.(applied := true)
  {
    hide RedactItems, RedactEntries;
  }

  /** A record too large is redacted as its first 1,000 entries, with the number of the dropped ones under a marker. */
  lemma LargeRecordsKeepTheirFront(rules: Rules, heap: Heap, entries: seq<Entry>, st: State, depth: nat)
    requires Closed(heap) && Inside(heap, Record(entries)) && depth < MAX_DEPTH && |entries| > 1_000
    ensures Inside(heap, Record(entries[..1_000]))
    ensures var whole := RedactObject(rules, heap, Record(entries), st, depth);
            var front := RedactObject(rules, heap, Record(entries[..1_000]), st, depth);
            && front.out.OutRecord?
            && whole.out == OutRecord(Assign(front.out.fields, TRUNCATED_KEYS, OutDropped(|entries| - 1_000)))
            && whole.state == front.state.(applied := true)
  {
    hide RedactItems, RedactEntries, Assign;
  }

  // ---- the bounds, on every object graph ----

  /**
    * Whatever the graph, circular or not: containers nest at most `MAX_DEPTH` deep, at most `MAX_NODES`
    * of them survive, every field under a sensitive key is "[REDACTED]", and when nothing was reported as
    * applied the output says what the input says, but for members called "__proto__".
    */
  lemma RedactionIsBounded(rules: Rules, heap: Heap, record: nat)
    requires RulesOk(rules) && Closed(heap) && record in heap && heap[record].Record?
    ensures var (out, applied) := Redacted(rules, heap, record);
            && NestsAtMost(out, 20)
            && Containers(out) <= 10_000
            && Hidden(rules, out)
            && (!applied ==> Mirrors(heap, Ref(record), out))
  {
    hide Closed, NestsAtMost, Hidden, Mirrors, RedactItems, RedactEntries;
    RedactIsGood(rules, heap, Ref(record), State(0, false, {}), 0, None);
  }
}
