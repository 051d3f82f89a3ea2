/**
  * The canonical form behind plan digests: `canonicalValue` and `stableStringify` of
  * packages/agent-runtime/src/engine/plan.ts, on JSON values as `JSON.parse` builds them.
  */
module CanonicalJson {
  import opened Strings

  datatype Member = Member(key: string, value: Json)

  /** Object members are listed in enumeration order; a parsed object repeats no key. */
  datatype Json =
    | JNull
    | JBool(flag: bool)
    | JNumber(number: real)
    | JString(text: string)
    | JArray(items: seq<Json>)
    | JObject(members: seq<Member>)

  ghost predicate DistinctKeys(members: seq<Member>) {
    forall i, j :: 0 <= i < j < |members| ==> members[i].key != members[j].key
  }

  ghost predicate WellFormed(json: Json) {
    match json
    case JArray(items) => forall i :: 0 <= i < |items| ==> WellFormed(items[i])
    case JObject(members) => DistinctKeys(members) && forall i :: 0 <= i < |members| ==> WellFormed(members[i].value)
    case _ => true
  }

  // ---- the order in which a JavaScript object lists its keys when they are added sorted ----

  predicate Digits(s: string) {
    s != "" && forall i :: 0 <= i < |s| ==> '0' <= s[i] <= '9'
  }

  function Number(s: string): nat
    requires forall i :: 0 <= i < |s| ==> '0' <= s[i] <= '9'
  {
    if s == "" then 0 else Number(s[..|s| - 1]) * 10 + (s[|s| - 1] as int - '0' as int)
  }

  /** Array-index keys are listed first, in numeric order, whatever the order of insertion. */
  predicate IndexKey(s: string) {
    Digits(s) && (s == "0" || s[0] != '0') && Number(s) < 0xFFFF_FFFF
  }

  predicate Before(a: string, b: string) {
    if IndexKey(a) && IndexKey(b) then |a| < |b| || (|a| == |b| && Less(a, b))
    else IndexKey(a) || (!IndexKey(b) && Less(a, b))
  }

  lemma BeforeIsTotalOrder(a: string, b: string, c: string)
    ensures !Before(a, a)
    ensures a != b ==> Before(a, b) || Before(b, a)
    ensures Before(a, b) && Before(b, c) ==> Before(a, c)
  {
    hide IndexKey, Less;
    LessIrreflexive(a);
    LessTotal(a, b);
    if Less(a, b) && Less(b, c) {
      LessTransitive(a, b, c);
    }
  }

  function Power(n: nat): nat
    ensures Power(n) >= 1
  {
    if n == 0 then 1 else 10 * Power(n - 1)
  }

  function Digit(c: char): nat
    requires '0' <= c <= '9'
  {
    c as int - '0' as int
  }

  ghost predicate AllDigits(s: string) {
    forall i :: 0 <= i < |s| ==> '0' <= s[i] <= '9'
  }

  /** The first digit counts by its place. */
  lemma {:induction false} FirstDigit(s: string)
    requires s != "" && AllDigits(s)
    ensures Number(s) == Digit(s[0]) * Power(|s| - 1) + Number(s[1..])
    decreases |s|
  {
    if |s| == 1 {
      assert s[..0] == "" && s[1..] == "";
    } else {
      var front := s[..|s| - 1];
      FirstDigit(front);
      assert front[1..] == s[1..][..|s[1..]| - 1] && s[1..][|s[1..]| - 1] == s[|s| - 1];
      Tenfold(Digit(s[0]), Power(|s| - 2));
    }
  }

  lemma Tenfold(digit: nat, power: nat)
    ensures digit * (10 * power) == 10 * (digit * power)
  {
  }

  lemma {:induction false} Larger(a: nat, b: nat, power: nat)
    requires a < b
    ensures a * power + power <= b * power
    decreases b
  {
    if a + 1 < b {
      Larger(a, b - 1, power);
      OneLess(b, power);
    }
  }

  lemma OneLess(b: nat, power: nat)
    requires b > 0
    ensures (b - 1) * power <= b * power
  {
  }

  lemma {:induction false} NumberIsBounded(s: string)
    requires AllDigits(s)
    ensures Number(s) < Power(|s|)
    ensures s != "" && s[0] != '0' ==> Power(|s| - 1) <= Number(s)
    decreases |s|
  {
    if s != "" {
      FirstDigit(s);
      NumberIsBounded(s[1..]);
      Larger(Digit(s[0]), 10, Power(|s| - 1));
      if s[0] != '0' {
        Larger(0, Digit(s[0]), Power(|s| - 1));
      }
    }
  }

  lemma {:induction false} EquallyLong(a: string, b: string)
    requires AllDigits(a) && AllDigits(b) && |a| == |b|
    ensures Less(a, b) <==> Number(a) < Number(b)
    decreases |a|
  {
    if a != "" {
      FirstDigit(a);
      FirstDigit(b);
      NumberIsBounded(a[1..]);
      NumberIsBounded(b[1..]);
      if Digit(a[0]) < Digit(b[0]) {
        Larger(Digit(a[0]), Digit(b[0]), Power(|a| - 1));
      } else if Digit(b[0]) < Digit(a[0]) {
        Larger(Digit(b[0]), Digit(a[0]), Power(|a| - 1));
      } else {
        EquallyLong(a[1..], b[1..]);
      }
    }
  }

  lemma {:induction false} PowerGrows(m: nat, n: nat)
    requires m <= n
    ensures Power(m) <= Power(n)
  {
    if m < n {
      PowerGrows(m, n - 1);
    }
  }

  /** The array indices of ECMAScript: decimal without leading zeros, up to 2^32 - 2. */
  lemma IndexKeyMeans(s: string)
    ensures IndexKey(s) <==>
            && s != "" && AllDigits(s) && (|s| > 1 ==> s[0] != '0') && Number(s) <= 4_294_967_294
  {
    if |s| == 1 && s[0] == '0' {
      assert s == "0";
    }
  }

  /** Array indices are listed before all other keys, and by their value; the other keys by code unit. */
  lemma BeforeMeans(a: string, b: string)
    ensures IndexKey(a) && IndexKey(b) ==> (Before(a, b) <==> Number(a) < Number(b))
    ensures IndexKey(a) && !IndexKey(b) ==> Before(a, b) && !Before(b, a)
    ensures !IndexKey(a) && !IndexKey(b) ==> (Before(a, b) <==> Less(a, b))
  {
    if IndexKey(a) && IndexKey(b) {
      if |a| == |b| {
        EquallyLong(a, b);
      } else if |a| < |b| {
        ShorterIsSmaller(a, b);
      } else {
        ShorterIsSmaller(b, a);
      }
    }
  }

  lemma ShorterIsSmaller(a: string, b: string)
    requires Digits(a) && Digits(b) && |a| < |b| && b[0] != '0'
    ensures Number(a) < Number(b)
  {
    NumberIsBounded(a);
    NumberIsBounded(b);
    PowerGrows(|a|, |b| - 1);
  }

  // ---- canonical form ----

  /** `sorted["__proto__"] = value` sets a prototype or nothing, but never an own member. */
  const PROTO := "__proto__"

  ghost predicate InOrder(members: seq<Member>) {
    forall i, j :: 0 <= i < j < |members| ==> Before(members[i].key, members[j].key)
  }

  /** Adds a member with a new key at its place. */
  function Put(m: Member, members: seq<Member>): (r: seq<Member>)
    requires InOrder(members)
    requires forall other :: other in members ==> other.key != m.key
    ensures InOrder(r)
    ensures forall other :: other in r <==> other == m || other in members
  {
    if members == [] then [m]
    else if Before(m.key, members[0].key) then
      assert forall i :: 0 <= i < |members| ==> Before(m.key, members[i].key) by {
        forall i | 0 < i < |members| ensures Before(m.key, members[i].key) {
          BeforeIsTotalOrder(m.key, members[0].key, members[i].key);
        }
      }
      [m] + members
    else
      var rest := Put(m, members[1..]);
      assert forall i :: 0 <= i < |rest| ==> Before(members[0].key, rest[i].key) by {
        assert members[0] in members;
        BeforeIsTotalOrder(m.key, members[0].key, m.key);
        forall i | 0 <= i < |rest| ensures Before(members[0].key, rest[i].key) { assert rest[i] in rest; }
      }
      [members[0]] + rest
  }

  /** Adds each member in key order, except "__proto__". */
  function Sorted(members: seq<Member>): (r: seq<Member>)
    requires DistinctKeys(members)
    ensures InOrder(r)
    ensures forall m :: m in r <==> m in members && m.key != PROTO
  {
    if members == [] then []
    else
      var rest := Sorted(members[1..]);
      if members[0].key == PROTO then rest else Put(members[0], rest)
  }

  function Canonical(json: Json): Json
    requires WellFormed(json)
  {
    match json
    case JArray(items) => JArray(seq(|items|, i requires 0 <= i < |items| => Canonical(items[i])))
    case JObject(members) =>
      JObject(Sorted(seq(|members|, i requires 0 <= i < |members| => Member(members[i].key, Canonical(members[i].value)))))
    case _ => json
  }

  /** The members of an object with canonical values, in their own order. */
  function CanonicalMembers(members: seq<Member>): (r: seq<Member>)
    requires WellFormed(JObject(members))
    ensures |r| == |members| && DistinctKeys(r)
    ensures forall i :: 0 <= i < |r| ==> r[i] == Member(members[i].key, Canonical(members[i].value))
    ensures Canonical(JObject(members)) == JObject(Sorted(r))
  {
    seq(|members|, i requires 0 <= i < |members| => Member(members[i].key, Canonical(members[i].value)))
  }

  // ---- what canonical equality means ----

  predicate HasKey(members: seq<Member>, key: string) {
    exists i :: 0 <= i < |members| && members[i].key == key
  }

  /** Equal up to the order of object members, nowhere looking at a member "__proto__". */
  ghost predicate Same(a: Json, b: Json) {
    match (a, b)
    case (JArray(x), JArray(y)) => |x| == |y| && forall i :: 0 <= i < |x| ==> Same(x[i], y[i])
    case (JObject(x), JObject(y)) =>
      && (forall key :: key != PROTO ==> (HasKey(x, key) <==> HasKey(y, key)))
      && (forall i, j :: 0 <= i < |x| && 0 <= j < |y| && x[i].key == y[j].key && x[i].key != PROTO ==>
            Same(x[i].value, y[j].value))
    case _ => a == b
  }

  lemma {:induction false} InOrderIsUnique(xs: seq<Member>, ys: seq<Member>)
    requires InOrder(xs) && InOrder(ys)
    requires forall m :: m in xs <==> m in ys
    ensures xs == ys
  {
    assert xs != [] ==> xs[0] in xs;
    assert ys != [] ==> ys[0] in ys;
    if xs != [] {
      FirstIsLeast(xs);
      FirstIsLeast(ys);
      BeforeIsTotalOrder(xs[0].key, ys[0].key, xs[0].key);
      assert xs[0] == ys[0];
      RestDropsFirst(xs);
      RestDropsFirst(ys);
      InOrderIsUnique(xs[1..], ys[1..]);
    }
  }

  lemma FirstIsLeast(xs: seq<Member>)
    requires InOrder(xs) && xs != []
    ensures forall m :: m in xs ==> m == xs[0] || Before(xs[0].key, m.key)
  {
  }

  lemma RestDropsFirst(xs: seq<Member>)
    requires InOrder(xs) && xs != []
    ensures InOrder(xs[1..])
    ensures forall m :: m in xs[1..] <==> m in xs && m != xs[0]
  {
    forall m | m in xs[1..] ensures m != xs[0] {
      BeforeIsTotalOrder(m.key, m.key, m.key);
    }
  }

  /** Two JSON values have the same canonical form exactly when they differ in nothing but key order. */
  lemma {:induction false} CanonicalIffSame(a: Json, b: Json)
    requires WellFormed(a) && WellFormed(b)
    ensures Canonical(a) == Canonical(b) <==> Same(a, b)
    decreases a
  {
    match (a, b)
    case (JArray(x), JArray(y)) =>
      if |x| == |y| {
        forall i | 0 <= i < |x| ensures Canonical(x[i]) == Canonical(y[i]) <==> Same(x[i], y[i]) {
          CanonicalIffSame(x[i], y[i]);
        }
        if Canonical(a) == Canonical(b) {
          forall i | 0 <= i < |x| ensures Same(x[i], y[i]) {
            assert Canonical(a).items[i] == Canonical(b).items[i];
          }
        }
      } else {
        assert |Canonical(a).items| != |Canonical(b).items|;
      }
    case (JObject(x), JObject(y)) =>
      forall i, j | 0 <= i < |x| && 0 <= j < |y|
        ensures Canonical(x[i].value) == Canonical(y[j].value) <==> Same(x[i].value, y[j].value)
      {
        CanonicalIffSame(x[i].value, y[j].value);
      }
      var cx, cy := CanonicalMembers(x), CanonicalMembers(y);
      if Canonical(a) == Canonical(b) {
        SameFormSameMembers(x, y, cx, cy);
      }
      if Same(a, b) {
        SameMembersSameForm(x, y, cx, cy);
        SameMembersSameForm(y, x, cy, cx);
        InOrderIsUnique(Sorted(cx), Sorted(cy));
      }
    case _ =>
  }

  lemma SameFormSameMembers(x: seq<Member>, y: seq<Member>, cx: seq<Member>, cy: seq<Member>)
    requires WellFormed(JObject(x)) && WellFormed(JObject(y))
    requires cx == CanonicalMembers(x) && cy == CanonicalMembers(y)
    requires Sorted(cx) == Sorted(cy)
    requires forall i, j :: 0 <= i < |x| && 0 <= j < |y| ==>
               (Canonical(x[i].value) == Canonical(y[j].value) <==> Same(x[i].value, y[j].value))
    ensures Same(JObject(x), JObject(y))
  {
    hide WellFormed, Sorted, Same, Canonical;
    assert forall m: Member :: m.key != PROTO ==> (m in cx <==> m in cy) by {
      assert forall m :: m in Sorted(cx) <==> m in cx && m.key != PROTO;
    }
    forall key | key != PROTO ensures HasKey(x, key) <==> HasKey(y, key) {
      if HasKey(x, key) { KeyMoves(x, y, cx, cy, key); }
      if HasKey(y, key) { KeyMoves(y, x, cy, cx, key); }
    }
    forall i, j | 0 <= i < |x| && 0 <= j < |y| && x[i].key == y[j].key && x[i].key != PROTO
      ensures Same(x[i].value, y[j].value)
    {
      assert cx[i] in cx && cy[j] in cy;
      var k :| 0 <= k < |cy| && cy[k] == cx[i];
      assert k == j by { assert cy[k].key == cy[j].key; }
    }
    assert Same(JObject(x), JObject(y)) by { SameObjects(x, y); }
  }

  lemma SameObjects(x: seq<Member>, y: seq<Member>)
    requires forall key :: key != PROTO ==> (HasKey(x, key) <==> HasKey(y, key))
    requires forall i, j :: 0 <= i < |x| && 0 <= j < |y| && x[i].key == y[j].key && x[i].key != PROTO ==>
               Same(x[i].value, y[j].value)
    ensures Same(JObject(x), JObject(y))
  {
  }

  lemma KeyMoves(x: seq<Member>, y: seq<Member>, cx: seq<Member>, cy: seq<Member>, key: string)
    requires |cx| == |x| && forall i :: 0 <= i < |x| ==> cx[i].key == x[i].key
    requires |cy| == |y| && forall i :: 0 <= i < |y| ==> cy[i].key == y[i].key
    requires forall m: Member :: m.key != PROTO ==> (m in cx <==> m in cy)
    requires key != PROTO && HasKey(x, key)
    ensures HasKey(y, key)
  {
    var i :| 0 <= i < |x| && x[i].key == key;
    assert cx[i] in cy;
    var j :| 0 <= j < |cy| && cy[j] == cx[i];
    assert y[j].key == key;
  }

  lemma SameMembersSameForm(x: seq<Member>, y: seq<Member>, cx: seq<Member>, cy: seq<Member>)
    requires WellFormed(JObject(x)) && WellFormed(JObject(y))
    requires cx == CanonicalMembers(x) && cy == CanonicalMembers(y)
    requires forall key :: key != PROTO && HasKey(x, key) ==> HasKey(y, key)
    requires forall i, j :: 0 <= i < |x| && 0 <= j < |y| && x[i].key == y[j].key && x[i].key != PROTO ==>
               Canonical(x[i].value) == Canonical(y[j].value)
    ensures forall m :: m in Sorted(cx) ==> m in Sorted(cy)
  {
    hide WellFormed, Sorted, Same, Canonical;
    forall m | m in Sorted(cx) ensures m in Sorted(cy) {
      var i :| 0 <= i < |cx| && cx[i] == m;
      assert HasKey(x, x[i].key);
      var j :| 0 <= j < |y| && y[j].key == x[i].key;
      assert cy[j] == m;
    }
  }

  // ---- idempotence ----

  lemma {:induction false} CanonicalIsSame(json: Json)
    requires WellFormed(json)
    ensures WellFormed(Canonical(json)) && Same(Canonical(json), json)
    decreases json
  {
    match json
    case JArray(items) =>
      forall i | 0 <= i < |items| ensures WellFormed(Canonical(items[i])) && Same(Canonical(items[i]), items[i]) {
        CanonicalIsSame(items[i]);
      }
    case JObject(members) =>
      forall i | 0 <= i < |members|
        ensures WellFormed(Canonical(members[i].value)) && Same(Canonical(members[i].value), members[i].value)
      {
        CanonicalIsSame(members[i].value);
      }
      SortedIsSame(members, CanonicalMembers(members));
    case _ =>
  }

  lemma SortedIsSame(members: seq<Member>, canonical: seq<Member>)
    requires WellFormed(JObject(members)) && canonical == CanonicalMembers(members)
    requires forall i :: 0 <= i < |members| ==>
               WellFormed(Canonical(members[i].value)) && Same(Canonical(members[i].value), members[i].value)
    ensures WellFormed(JObject(Sorted(canonical))) && Same(JObject(Sorted(canonical)), JObject(members))
  {
    hide Canonical, Same, Sorted, Before;
    var sorted := Sorted(canonical);
    forall i | 0 <= i < |sorted| ensures exists k :: 0 <= k < |members| && canonical[k] == sorted[i] && sorted[i].key != PROTO {
      assert sorted[i] in sorted;
    }
    forall i, j | 0 <= i < j < |sorted| ensures sorted[i].key != sorted[j].key {
      BeforeIsTotalOrder(sorted[i].key, sorted[j].key, sorted[i].key);
    }
    forall key | key != PROTO ensures HasKey(sorted, key) <==> HasKey(members, key) {
      if HasKey(members, key) {
        var k :| 0 <= k < |members| && members[k].key == key;
        assert canonical[k] in sorted;
      }
    }
    SameObjects(sorted, members);
  }

  /** Canonicalising twice is canonicalising once. */
  lemma CanonicalIsIdempotent(json: Json)
    requires WellFormed(json)
    ensures WellFormed(Canonical(json)) && Canonical(Canonical(json)) == Canonical(json)
  {
    CanonicalIsSame(json);
    CanonicalIffSame(Canonical(json), json);
  }

  /**
    * `digestPlan` for any hash of the canonical text: key order never matters, and with a hash that
    * never collides nothing else is lost but members called "__proto__".
    */
  lemma DigestIffSame(a: Json, b: Json, hash: Json -> string)
    requires WellFormed(a) && WellFormed(b)
    ensures Same(a, b) ==> hash(Canonical(a)) == hash(Canonical(b))
    ensures (forall x, y :: hash(x) == hash(y) ==> x == y) ==> (hash(Canonical(a)) == hash(Canonical(b)) ==> Same(a, b))
  {
    CanonicalIffSame(a, b);
  }

  lemma KeyIsNew(members: seq<Member>, key: string)
    requires !HasKey(members, key)
    ensures forall i :: 0 <= i < |members| ==> members[i].key != key
  {
  }

  /** A member "__proto__" is invisible to the digest: adding one to a plan does not change it. */
  lemma ProtoIsInvisible(members: seq<Member>, value: Json, hash: Json -> string)
    requires WellFormed(JObject(members)) && WellFormed(value) && !HasKey(members, PROTO)
    ensures WellFormed(JObject(members + [Member(PROTO, value)]))
    ensures hash(Canonical(JObject(members + [Member(PROTO, value)]))) == hash(Canonical(JObject(members)))
  {
    var more := members + [Member(PROTO, value)];
    assert DistinctKeys(more) by {
      KeyIsNew(members, PROTO);
    }
    forall key | key != PROTO ensures HasKey(more, key) <==> HasKey(members, key) {
      if HasKey(members, key) {
        var k :| 0 <= k < |members| && members[k].key == key;
        assert more[k].key == key;
      }
    }
    forall i | 0 <= i < |members| ensures Same(more[i].value, members[i].value) {
      CanonicalIffSame(members[i].value, members[i].value);
    }
    forall i, j | 0 <= i < |more| && 0 <= j < |members| && more[i].key == members[j].key && more[i].key != PROTO
      ensures Same(more[i].value, members[j].value)
    {
      assert i == j;
    }
    SameObjects(more, members);
    DigestIffSame(JObject(more), JObject(members), hash);
  }
}
