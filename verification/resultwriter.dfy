// Writing a tool's result text into a message of a type known only by its
// descriptor: a depth-bounded walk through outcome oneofs to a string field.
module ResultWriters {
  import opened Basics

  // ---- descriptors ----

  datatype Kind = StringKind | MessageKind(typeName: string) | OtherKind

  /** list: repeated, or a map. */
  datatype Field = Field(name: string, kind: Kind, list: bool)

  /** A field declared optional brings a synthetic oneof of its own. */
  datatype Oneof = Oneof(cases: seq<Field>, synthetic: bool)

  datatype Descriptor = Descriptor(fields: seq<Field>, oneofs: seq<Oneof>)

  /** Types by name, which may refer to each other in cycles. */
  type Schema = map<string, Descriptor>

  function Of(s: Schema, typeName: string): Descriptor {
    if typeName in s then s[typeName] else Descriptor([], [])
  }

  // ---- messages, flattened ----

  type Path = seq<string>

  /** A string, or a value of any other type in some fixed rendering. */
  datatype Leaf = Text(text: string) | Opaque(value: string)

  /** The submessages that are set, and the values, by the field names that lead to them. */
  datatype Message = Message(present: set<Path>, leaves: map<Path, Leaf>)
  {
    predicate Has(name: string) {
      [name] in present || [name] in leaves
    }
  }

  const EMPTY: Message := Message({}, map[])

  function Under(name: string, m: Message): Message {
    Message({[name]} + (set p | p in m.present :: [name] + p),
            map p | p in (set q | q in m.leaves :: [name] + q) && p != [] && p[1..] in m.leaves :: m.leaves[p[1..]])
  }

  /** Reflection panics where a list is treated as a message or as a string. */
  datatype Written = Panicked | Done(message: Message)

  // ---- the writer ----

  const MAX_DEPTH: nat := 4

  const PREFERRED: seq<string> := ["stdout", "output", "content", "text", "result", "message", "body"]

  function FirstReal(oneofs: seq<Oneof>): Option<Oneof> {
    if oneofs == [] then None else if !oneofs[0].synthetic then Some(oneofs[0]) else FirstReal(oneofs[1..])
  }

  function FirstNamed(fields: seq<Field>, name: string): Option<Field> {
    if fields == [] then None else if fields[0].name == name then Some(fields[0]) else FirstNamed(fields[1..], name)
  }

  /** The success case, else the first declared. */
  function Choose(cases: seq<Field>): Option<Field> {
    if FirstNamed(cases, "success").Some? then FirstNamed(cases, "success")
    else if cases == [] then None
    else Some(cases[0])
  }

  function StringNamed(fields: seq<Field>, name: string): Option<Field> {
    if fields == [] then None
    else if fields[0].kind.StringKind? && fields[0].name == name then Some(fields[0])
    else StringNamed(fields[1..], name)
  }

  function FirstPreferred(fields: seq<Field>, names: seq<string>): Option<Field> {
    if names == [] then None
    else if StringNamed(fields, names[0]).Some? then StringNamed(fields, names[0])
    else FirstPreferred(fields, names[1..])
  }

  function FirstString(fields: seq<Field>): Option<Field> {
    if fields == [] then None else if fields[0].kind.StringKind? then Some(fields[0]) else FirstString(fields[1..])
  }

  function Pick(fields: seq<Field>): Option<Field> {
    if FirstPreferred(fields, PREFERRED).Some? then FirstPreferred(fields, PREFERRED) else FirstString(fields)
  }

  // ---- what is picked ----

  /** The place of a name among the preferred ones, or after all of them. */
  function Rank(names: seq<string>, name: string): nat {
    if names == [] || names[0] == name then 0 else 1 + Rank(names[1..], name)
  }

  lemma {:induction false} StringNamedExactly(fields: seq<Field>, name: string)
    ensures var r := StringNamed(fields, name);
      if r.Some? then r.value in fields && r.value.kind.StringKind? && r.value.name == name
      else forall f :: f in fields && f.kind.StringKind? ==> f.name != name
  {
    if fields != [] {
      StringNamedExactly(fields[1..], name);
      assert fields == [fields[0]] + fields[1..];
    }
  }

  lemma {:induction false} FirstPreferredExactly(fields: seq<Field>, names: seq<string>)
    ensures var r := FirstPreferred(fields, names);
      if r.Some? then
        && r.value in fields && r.value.kind.StringKind? && Rank(names, r.value.name) < |names|
        && forall f :: f in fields && f.kind.StringKind? ==> Rank(names, r.value.name) <= Rank(names, f.name)
      else forall f :: f in fields && f.kind.StringKind? ==> Rank(names, f.name) == |names|
    decreases |names|
  {
    if names != [] {
      StringNamedExactly(fields, names[0]);
      FirstPreferredExactly(fields, names[1..]);
    }
  }

  lemma {:induction false} FirstStringExactly(fields: seq<Field>)
    ensures var r := FirstString(fields);
      if r.Some? then r.value in fields && r.value.kind.StringKind? else forall f :: f in fields ==> !f.kind.StringKind?
  {
    if fields != [] {
      FirstStringExactly(fields[1..]);
      assert fields == [fields[0]] + fields[1..];
    }
  }

  /** A string field is picked if there is any, and no other string field has a name preferred to its. */
  lemma PickedExactly(fields: seq<Field>)
    ensures var r := Pick(fields);
      if r.Some? then
        && r.value in fields && r.value.kind.StringKind?
        && forall f :: f in fields && f.kind.StringKind? ==> Rank(PREFERRED, r.value.name) <= Rank(PREFERRED, f.name)
      else forall f :: f in fields ==> !f.kind.StringKind?
  {
    FirstPreferredExactly(fields, PREFERRED);
    FirstStringExactly(fields);
  }

  lemma {:induction false} RankAt(names: seq<string>, i: nat)
    requires i <= |names| && forall j, k :: 0 <= j < k < |names| ==> names[j] != names[k]
    ensures i < |names| ==> Rank(names, names[i]) == i
    decreases i
  {
    if 0 < i < |names| {
      RankAt(names[1..], i - 1);
      assert names[1..][i - 1] == names[i] != names[0];
    }
  }

  lemma {:induction false} RankBelow(names: seq<string>, name: string, n: nat)
    requires Rank(names, name) < n <= |names|
    ensures exists i :: 0 <= i < n && names[i] == name
  {
    if names[0] != name {
      RankBelow(names[1..], name, n - 1);
      var i :| 0 <= i < n - 1 && names[1..][i] == name;
      assert names[i + 1] == name;
    } else {
      assert names[0] == name;
    }
  }

  /** The names in the order they are tried. */
  lemma PreferredNames()
    ensures PREFERRED == ["stdout", "output", "content", "text", "result", "message", "body"]
    ensures forall j, k :: 0 <= j < k < 7 ==> PREFERRED[j] != PREFERRED[k]
  {
    var l := PREFERRED;
    assert |l[0]| == 6 && |l[1]| == 6 && |l[2]| == 7 && |l[3]| == 4 && |l[4]| == 6 && |l[5]| == 7 && |l[6]| == 4;
    assert l[0][0] == 's' && l[1][0] == 'o' && l[2][0] == 'c' && l[3][0] == 't' && l[4][0] == 'r' && l[5][0] == 'm';
    assert l[6][0] == 'b';
  }

  predicate HasString(fields: seq<Field>, name: string) {
    exists f :: f in fields && f.kind.StringKind? && f.name == name
  }

  /** The text goes to the string field with the first of the seven names that any string field has. */
  lemma PicksByName(fields: seq<Field>, i: nat)
    requires i < 7
    ensures var names := ["stdout", "output", "content", "text", "result", "message", "body"];
      HasString(fields, names[i]) && (forall j :: 0 <= j < i ==> !HasString(fields, names[j])) ==>
        Pick(fields).Some? && Pick(fields).value.kind.StringKind? && Pick(fields).value.name == names[i]
  {
    PreferredNames();
    RankAt(PREFERRED, i);
    PickedExactly(fields);
    if HasString(fields, PREFERRED[i]) && forall j :: 0 <= j < i ==> !HasString(fields, PREFERRED[j]) {
      var f :| f in fields && f.kind.StringKind? && f.name == PREFERRED[i];
      var r := Pick(fields).value;
      assert Rank(PREFERRED, r.name) <= i;
      RankBelow(PREFERRED, r.name, i + 1);
    }
  }

  lemma {:induction false} FirstStringIsFirst(fields: seq<Field>)
    ensures FirstString(fields).Some? ==>
      exists k :: 0 <= k < |fields| && fields[k] == FirstString(fields).value && NoString(fields[..k])
  {
    if fields != [] {
      if fields[0].kind.StringKind? {
        assert NoString(fields[..0]);
      } else if FirstString(fields).Some? {
        FirstStringIsFirst(fields[1..]);
        var k :| 0 <= k < |fields[1..]| && fields[1..][k] == FirstString(fields).value && NoString(fields[1..][..k]);
        assert fields[..k + 1] == [fields[0]] + fields[1..][..k] && fields[k + 1] == fields[1..][k];
        assert NoString(fields[..k + 1]);
      }
    }
  }

  predicate NoString(fields: seq<Field>) {
    forall f :: f in fields ==> !f.kind.StringKind?
  }

  /** Without any of those names it goes to the first string field of all. */
  lemma PicksFirstOtherwise(fields: seq<Field>)
    requires forall name :: name in ["stdout", "output", "content", "text", "result", "message", "body"] ==>
               !HasString(fields, name)
    ensures if NoString(fields) then Pick(fields) == None
            else exists k :: 0 <= k < |fields| && Pick(fields) == Some(fields[k]) && fields[k].kind.StringKind?
                   && NoString(fields[..k])
  {
    PreferredNames();
    FirstPreferredExactly(fields, PREFERRED);
    if FirstPreferred(fields, PREFERRED).Some? {
      var f := FirstPreferred(fields, PREFERRED).value;
      RankBelow(PREFERRED, f.name, 7);
      assert HasString(fields, f.name);
    }
    FirstStringIsFirst(fields);
    FirstStringExactly(fields);
  }

  /** The outcome oneof is the first that does not stand for an optional field. */
  lemma {:induction false} FirstRealExactly(oneofs: seq<Oneof>)
    ensures match FirstReal(oneofs)
      case None => forall o :: o in oneofs ==> o.synthetic
      case Some(r) =>
        && !r.synthetic
        && exists k :: 0 <= k < |oneofs| && oneofs[k] == r && forall j :: 0 <= j < k ==> oneofs[j].synthetic
  {
    if oneofs != [] && oneofs[0].synthetic {
      FirstRealExactly(oneofs[1..]);
      assert oneofs == [oneofs[0]] + oneofs[1..];
      if FirstReal(oneofs).Some? {
        var k :| 0 <= k < |oneofs[1..]| && oneofs[1..][k] == FirstReal(oneofs).value
          && forall j :: 0 <= j < k ==> oneofs[1..][j].synthetic;
        assert oneofs[k + 1] == oneofs[1..][k];
        assert forall j :: 1 <= j < k + 1 ==> oneofs[j] == oneofs[1..][j - 1];
      }
    } else if oneofs != [] {
      assert oneofs[0] == FirstReal(oneofs).value;
    }
  }

  lemma {:induction false} FirstNamedExactly(cases: seq<Field>, name: string)
    ensures var r := FirstNamed(cases, name);
      if r.Some? then r.value in cases && r.value.name == name else forall f :: f in cases ==> f.name != name
  {
    if cases != [] {
      FirstNamedExactly(cases[1..], name);
      assert cases == [cases[0]] + cases[1..];
    }
  }

  /** The success case is chosen if it is declared, and the first case otherwise. */
  lemma ChosenExactly(cases: seq<Field>)
    ensures var r := Choose(cases);
      && (r.None? <==> cases == [])
      && (r.Some? ==> r.value in cases && (r.value.name == "success" || r.value == cases[0]))
      && ((exists f :: f in cases && f.name == "success") ==> r.Some? && r.value.name == "success")
  {
    FirstNamedExactly(cases, "success");
  }

  method SetFirstStringField(fields: seq<Field>, value: string) returns (w: Written)
    ensures w == WriteString(fields, value)
  {
    for n := 0 to |PREFERRED|
      invariant FirstPreferred(fields, PREFERRED) == FirstPreferred(fields, PREFERRED[n..])
    {
      assert PREFERRED[n..][0] == PREFERRED[n] && PREFERRED[n..][1..] == PREFERRED[n + 1..];
      for i := 0 to |fields|
        invariant StringNamed(fields, PREFERRED[n]) == StringNamed(fields[i..], PREFERRED[n])
      {
        assert fields[i..][0] == fields[i] && fields[i..][1..] == fields[i + 1..];
        if fields[i].kind.StringKind? && fields[i].name == PREFERRED[n] {
          return if fields[i].list then Panicked else Done(Message({}, map[[fields[i].name] := Text(value)]));
        }
      }
    }
    for i := 0 to |fields|
      invariant FirstPreferred(fields, PREFERRED).None? && FirstString(fields) == FirstString(fields[i..])
    {
      assert fields[i..][0] == fields[i] && fields[i..][1..] == fields[i + 1..];
      if fields[i].kind.StringKind? {
        return if fields[i].list then Panicked else Done(Message({}, map[[fields[i].name] := Text(value)]));
      }
    }
    w := Done(EMPTY);
  }

  function WriteString(fields: seq<Field>, value: string): Written {
    match Pick(fields)
    case None => Done(EMPTY)
    case Some(f) => if f.list then Panicked else Done(Message({}, map[[f.name] := Text(value)]))
  }

  /** A fresh message of the type, populated from the given depth on. */
  function Populate(s: Schema, typeName: string, value: string, depth: nat): Written
    decreases MAX_DEPTH - depth
  {
    if depth >= MAX_DEPTH then Done(EMPTY)
    else
      match FirstReal(Of(s, typeName).oneofs)
      case None => WriteString(Of(s, typeName).fields, value)
      case Some(o) =>
        match Choose(o.cases)
        case None => Done(EMPTY)
        case Some(f) =>
          if !f.kind.MessageKind? then Done(EMPTY)
          else if f.list then Panicked
          else
            match Populate(s, f.kind.typeName, value, depth + 1)
            case Panicked => Panicked
            case Done(m) => Done(Under(f.name, m))
  }

  method PopulateResultMessage(s: Schema, typeName: string, value: string, depth: nat) returns (w: Written)
    ensures w == Populate(s, typeName, value, depth)
    decreases MAX_DEPTH - depth
  {
    if depth >= MAX_DEPTH {
      return Done(EMPTY);
    }
    var o := FirstReal(Of(s, typeName).oneofs);
    if o.None? {
      w := SetFirstStringField(Of(s, typeName).fields, value);
      return;
    }
    var cases := o.value.cases;
    if |cases| == 0 {
      return Done(EMPTY);
    }
    var chosen := None;
    for i := 0 to |cases|
      invariant chosen.None? && FirstNamed(cases, "success") == FirstNamed(cases[i..], "success")
    {
      assert cases[i..][0] == cases[i] && cases[i..][1..] == cases[i + 1..];
      if cases[i].name == "success" {
        chosen := Some(cases[i]);
        break;
      }
    }
    if chosen.None? {
      chosen := Some(cases[0]);
    }
    if !chosen.value.kind.MessageKind? {
      return Done(EMPTY);
    }
    if chosen.value.list {
      return Panicked;
    }
    var inner := PopulateResultMessage(s, chosen.value.kind.typeName, value, depth + 1);
    w := if inner.Panicked? then Panicked else Done(Under(chosen.value.name, inner.message));
  }

  // ---- where the walk leads, told by the schema alone ----

  /** How the walk ends: at a string field, or for one of the reasons nothing can be written. */
  datatype End = AtString(field: string) | AtList | Nowhere | TooFar

  datatype Walk = Walk(path: Path, end: End)

  /** The walk through at most n cases. */
  function WalkFrom(s: Schema, typeName: string, n: nat): Walk
    decreases n
  {
    match FirstReal(Of(s, typeName).oneofs)
    case None =>
      (match Pick(Of(s, typeName).fields)
       case None => Walk([], Nowhere)
       case Some(f) => Walk([], if f.list then AtList else AtString(f.name)))
    case Some(o) =>
      match Choose(o.cases)
      case None => Walk([], Nowhere)
      case Some(f) =>
        if !f.kind.MessageKind? then Walk([], Nowhere)
        else if f.list then Walk([], AtList)
        else if n == 0 then Walk([], TooFar)
        else
          var rest := WalkFrom(s, f.kind.typeName, n - 1);
          Walk([f.name] + rest.path, rest.end)
  }

  /** A walk that ends within n cases ends the same way however many more are allowed. */
  lemma {:induction false} WalkIsSettled(s: Schema, typeName: string, n: nat, more: nat)
    requires n <= more && WalkFrom(s, typeName, n).end != TooFar
    ensures WalkFrom(s, typeName, more) == WalkFrom(s, typeName, n)
    decreases n
  {
    match FirstReal(Of(s, typeName).oneofs) {
      case None =>
      case Some(o) =>
        var c := Choose(o.cases);
        if c.Some? && c.value.kind.MessageKind? && !c.value.list {
          WalkIsSettled(s, c.value.kind.typeName, n - 1, more - 1);
        }
    }
  }

  /** The submessages along a path. */
  function Along(path: Path): set<Path> {
    set i | 1 <= i <= |path| :: path[..i]
  }

  function Content(w: Walk, value: string): Message {
    Message(Along(w.path), if w.end.AtString? then map[w.path + [w.end.field] := Text(value)] else map[])
  }

  lemma UnderAlong(name: string, path: Path)
    ensures {[name]} + (set p | p in Along(path) :: [name] + p) == Along([name] + path)
  {
    var all, q := {[name]} + (set p | p in Along(path) :: [name] + p), [name] + path;
    forall r | r in Along(q) ensures r in all {
      var i :| 1 <= i <= |q| && r == q[..i];
      if i > 1 {
        assert path[..i - 1] in Along(path) && r == [name] + path[..i - 1];
      }
    }
    forall r | r in all ensures r in Along(q) {
      if r == [name] {
        assert r == q[..1];
      } else {
        var p :| p in Along(path) && r == [name] + p;
        var i :| 1 <= i <= |path| && p == path[..i];
        assert r == q[..i + 1];
      }
    }
  }

  lemma UnderContent(name: string, w: Walk, value: string)
    ensures Under(name, Content(w, value)) == Content(Walk([name] + w.path, w.end), value)
  {
    UnderAlong(name, w.path);
    if w.end.AtString? {
      var at := w.path + [w.end.field];
      assert [name] + at == [name] + w.path + [w.end.field];
      assert ([name] + at)[1..] == at;
      assert Content(w, value).leaves == map[at := Text(value)];
      assert Under(name, Content(w, value)).leaves == map[[name] + at := Text(value)];
    }
  }

  /** From depth d, with k = 3 - d cases to go, the writer does what the walk says; where the walk
      needs one case more, the last message is left empty. */
  lemma {:induction false} PopulateFollowsWalk(s: Schema, typeName: string, value: string, k: nat)
    requires k <= 2
    ensures var w, r := WalkFrom(s, typeName, k), Populate(s, typeName, value, 3 - k);
      (w.end == AtList ==> r == Panicked) &&
      (w.end != AtList && w.end != TooFar ==> r == Done(Content(w, value))) &&
      (w.end == TooFar ==> r.Done? && r.message.leaves == map[])
    decreases k
  {
    match FirstReal(Of(s, typeName).oneofs) {
      case None =>
        EmptyContent(value);
        var f := Pick(Of(s, typeName).fields);
        if f.Some? && !f.value.list {
          assert [] + [f.value.name] == [f.value.name];
          assert Along([]) == {};
        }
      case Some(o) =>
        EmptyContent(value);
        var c := Choose(o.cases);
        if c.Some? && c.value.kind.MessageKind? && !c.value.list {
          if k == 0 {
            assert Populate(s, c.value.kind.typeName, value, 4) == Done(EMPTY);
          } else {
            PopulateFollowsWalk(s, c.value.kind.typeName, value, k - 1);
            UnderContent(c.value.name, WalkFrom(s, c.value.kind.typeName, k - 1), value);
          }
        }
    }
  }

  lemma EmptyContent(value: string)
    ensures Content(Walk([], Nowhere), value) == EMPTY
  {
    assert Along([]) == {};
  }

  /** The result text is written, as the one string of the message, exactly when the walk reaches a
      singular string field through at most two cases.  Otherwise nothing is written, or reflection
      panics where the walk meets a list. */
  lemma WrittenExactly(s: Schema, typeName: string, value: string, n: nat)
    requires n >= 2
    ensures var w, r := WalkFrom(s, typeName, n), Populate(s, typeName, value, 1);
      && (w.end.AtString? && |w.path| <= 2 ==>
           r == Done(Content(w, value)) && r.message.leaves == map[w.path + [w.end.field] := Text(value)])
      && (w.end == AtList && |w.path| <= 2 ==> r == Panicked)
      && (!(w.end.AtString? && |w.path| <= 2) ==> r == Panicked || r.message.leaves == map[])
  {
    PopulateFollowsWalk(s, typeName, value, 2);
    var short := WalkFrom(s, typeName, 2);
    WalkLength(s, typeName, 2);
    if short.end != TooFar {
      WalkIsSettled(s, typeName, 2, n);
    } else {
      LongWalk(s, typeName, 2, n);
    }
  }

  lemma {:induction false} WalkLength(s: Schema, typeName: string, n: nat)
    ensures |WalkFrom(s, typeName, n).path| <= n
    decreases n
  {
    match FirstReal(Of(s, typeName).oneofs) {
      case None =>
      case Some(o) =>
        var c := Choose(o.cases);
        if n > 0 && c.Some? && c.value.kind.MessageKind? && !c.value.list {
          WalkLength(s, c.value.kind.typeName, n - 1);
        }
    }
  }

  /** A walk not over after n cases goes through more than n, if it is ever allowed to. */
  lemma {:induction false} LongWalk(s: Schema, typeName: string, n: nat, more: nat)
    requires n <= more && WalkFrom(s, typeName, n).end == TooFar
    ensures WalkFrom(s, typeName, more).end == TooFar || |WalkFrom(s, typeName, more).path| > n
    decreases n
  {
    match FirstReal(Of(s, typeName).oneofs) {
      case None =>
      case Some(o) =>
        var c := Choose(o.cases);
        if n > 0 && c.Some? && c.value.kind.MessageKind? && !c.value.list {
          LongWalk(s, c.value.kind.typeName, n - 1, more - 1);
        }
    }
  }

  // ---- the result field of a tool call ----

  /** The names that share a oneof with a field: setting one clears the others. */
  function Siblings(oneofs: seq<Oneof>, name: string): set<string> {
    set o, f | o in oneofs && FirstNamed(o.cases, name).Some? && f in o.cases && f.name != name :: f.name
  }

  function SetSubmessage(d: Descriptor, m: Message, name: string, sub: Message): Message {
    var gone := Siblings(d.oneofs, name) + {name};
    var u := Under(name, sub);
    Message((set p | p in m.present && (p == [] || p[0] !in gone)) + u.present,
            (map p | p in m.leaves && (p == [] || p[0] !in gone) :: m.leaves[p]) + u.leaves)
  }

  function ResultField(fields: seq<Field>): (r: Option<Field>)
    ensures r.Some? ==> r.value.name == "result" && r.value.kind.MessageKind?
  {
    if fields == [] then None
    else if fields[0].name == "result" && fields[0].kind.MessageKind? then Some(fields[0])
    else ResultField(fields[1..])
  }

  /** A tool call of the type with the result filled in; without such a field it stays as it is. */
  function WithResult(s: Schema, typeName: string, m: Message, value: string): Written {
    match ResultField(Of(s, typeName).fields)
    case None => Done(m)
    case Some(f) =>
      if f.list then Panicked
      else match Populate(s, f.kind.typeName, value, 1)
        case Panicked => Panicked
        case Done(sub) => Done(SetSubmessage(Of(s, typeName), m, f.name, sub))
  }

  method SetGenericResultField(s: Schema, typeName: string, m: Message, value: string) returns (w: Written)
    ensures w == WithResult(s, typeName, m, value)
  {
    var fields := Of(s, typeName).fields;
    for i := 0 to |fields|
      invariant ResultField(fields) == ResultField(fields[i..])
    {
      assert fields[i..][0] == fields[i] && fields[i..][1..] == fields[i + 1..];
      if fields[i].name != "result" || !fields[i].kind.MessageKind? {
        continue;
      }
      if fields[i].list {
        return Panicked;
      }
      var sub := PopulateResultMessage(s, fields[i].kind.typeName, value, 1);
      return if sub.Panicked? then Panicked else Done(SetSubmessage(Of(s, typeName), m, fields[i].name, sub.message));
    }
    w := Done(m);
  }

  function LeafAt(m: Message, p: Path): Option<Leaf> {
    if p in m.leaves then Some(m.leaves[p]) else None
  }

  lemma LeafUnder(name: string, m: Message, p: Path)
    ensures LeafAt(Under(name, m), p) == if p != [] && p[0] == name then LeafAt(m, p[1..]) else None
  {
    if p != [] && p[0] == name && p[1..] in m.leaves {
      assert p == [name] + p[1..];
    }
  }

  lemma PresentUnder(name: string, m: Message, p: Path)
    ensures p in Under(name, m).present <==> p == [name] || (p != [] && p[0] == name && p[1..] in m.present)
  {
    if p != [] && p[0] == name && p[1..] in m.present {
      assert p == [name] + p[1..];
    }
  }

  /** Both messages hold the same at this path. */
  predicate SameAt(m: Message, n: Message, p: Path) {
    LeafAt(m, p) == LeafAt(n, p) && (p in m.present <==> p in n.present)
  }

  /** Setting a submessage replaces what was below the field and its siblings, and nothing else. */
  lemma SubmessageIsSet(d: Descriptor, m: Message, name: string, sub: Message, p: Path)
    requires p != [] && p[0] !in Siblings(d.oneofs, name)
    ensures var after := SetSubmessage(d, m, name, sub);
      if p[0] == name then LeafAt(after, p) == LeafAt(sub, p[1..]) else SameAt(after, m, p)
  {
    LeafUnder(name, sub, p);
    PresentUnder(name, sub, p);
  }

  /** The other cases of its oneof are cleared. */
  lemma SiblingsAreCleared(d: Descriptor, m: Message, name: string, sub: Message, o: Oneof, other: Field, p: Path)
    requires o in d.oneofs && other in o.cases && other.name != name && p != [] && p[0] == other.name
    requires exists f :: f in o.cases && f.name == name
    ensures var after := SetSubmessage(d, m, name, sub); LeafAt(after, p) == None && p !in after.present
  {
    FirstNamedExactly(o.cases, name);
    assert other.name in Siblings(d.oneofs, name);
    LeafUnder(name, sub, p);
    PresentUnder(name, sub, p);
  }

  ghost predicate OnlyLeafIs(m: Message, below: string, w: Walk, value: string) {
    forall p :: p != [] && p[0] == below ==>
      LeafAt(m, p) == if w.end.AtString? && p[1..] == w.path + [w.end.field] then Some(Text(value)) else None
  }

  /** Nothing differs between the messages but what is below the result field and its oneof siblings. */
  ghost predicate SameButResult(d: Descriptor, m: Message, n: Message) {
    forall p :: p != [] && p[0] != "result" && p[0] !in Siblings(d.oneofs, "result") ==> SameAt(m, n, p)
  }

  /** Below the result field is the text alone, at the end of its walk, if that walk is short enough,
      and no value otherwise; every field that is no oneof sibling of the result is left alone. */
  lemma ResultIsReadBack(s: Schema, typeName: string, m: Message, value: string)
    requires ResultField(Of(s, typeName).fields).Some? && WithResult(s, typeName, m, value).Done?
    ensures var d, after := Of(s, typeName), WithResult(s, typeName, m, value).message;
      && OnlyLeafIs(after, "result", WalkFrom(s, ResultField(d.fields).value.kind.typeName, 2), value)
      && SameButResult(d, after, m)
  {
    var d, t := Of(s, typeName), ResultField(Of(s, typeName).fields).value.kind.typeName;
    var sub := Populate(s, t, value, 1).message;
    var after := WithResult(s, typeName, m, value).message;
    assert after == SetSubmessage(d, m, "result", sub);
    WrittenExactly(s, t, value, 2);
    WalkLength(s, t, 2);
    forall p | p != [] && p[0] !in Siblings(d.oneofs, "result")
      ensures if p[0] == "result" then LeafAt(after, p) == LeafAt(sub, p[1..]) else SameAt(after, m, p)
    {
      SubmessageIsSet(d, m, "result", sub, p);
    }
  }
}
