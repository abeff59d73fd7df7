/**
 Parsed JSON and the limits `loads` puts on it. Lexing is not modelled: the start is the parsed
 tree, with object members in the order they were written and duplicate keys still present.
*/
module Wire {
  import opened Basics
  import Rational

  const BYTE_LIMIT := 2_000_000
  const DEPTH_LIMIT := 24
  const NODE_LIMIT := 50_000

  datatype Tree =
    | Null
    | Bool(flag: bool)
    | Int(number: int)
    | Str(text: string)
    | Array(items: seq<Tree>)
    | Object(fields: seq<Field>)

  datatype Field = Field(key: string, item: Tree)

  // ---- Shape.

  function Items(t: Tree): seq<Tree> {
    match t
    case Array(items) => items
    case Object(fields) => Values(fields)
    case _ => []
  }

  function Values(fields: seq<Field>): (r: seq<Tree>)
    ensures |r| == |fields|
    ensures forall i :: 0 <= i < |r| ==> r[i] == fields[i].item
  {
    seq(|fields|, i requires 0 <= i < |fields| => fields[i].item)
  }

  /** Levels below the root; a scalar or an empty container has none. */
  function Depth(t: Tree): nat
    decreases t, 0
  {
    match t
    case Array(items) => DepthOfItems(items)
    case Object(fields) => DepthOfFields(fields)
    case _ => 0
  }

  /** One more than the deepest item, zero when there is none. */
  function DepthOfItems(items: seq<Tree>): nat
    decreases items, 0
  {
    if items == [] then 0
    else Max(1 + Depth(items[0]), DepthOfItems(items[1..]))
  }

  function DepthOfFields(fields: seq<Field>): nat
    decreases fields, 0
  {
    if fields == [] then 0
    else Max(1 + Depth(fields[0].item), DepthOfFields(fields[1..]))
  }

  function Nodes(t: Tree): (n: nat)
    ensures n >= 1
    decreases t, 0
  {
    match t
    case Array(items) => 1 + NodesOfItems(items)
    case Object(fields) => 1 + NodesOfFields(fields)
    case _ => 1
  }

  function NodesOfItems(items: seq<Tree>): nat
    decreases items, 0
  {
    if items == [] then 0 else Nodes(items[0]) + NodesOfItems(items[1..])
  }

  function NodesOfFields(fields: seq<Field>): nat
    decreases fields, 0
  {
    if fields == [] then 0 else Nodes(fields[0].item) + NodesOfFields(fields[1..])
  }

  function Max(a: nat, b: nat): nat {
    if a < b then b else a
  }

  predicate KeysDistinct(fields: seq<Field>) {
    forall i, j :: 0 <= i < j < |fields| ==> fields[i].key != fields[j].key
  }

  /** No object anywhere repeats a key. */
  predicate WellKeyed(t: Tree)
    decreases t
  {
    match t
    case Array(items) => forall i :: 0 <= i < |items| ==> WellKeyed(items[i])
    case Object(fields) => KeysDistinct(fields) && forall i :: 0 <= i < |fields| ==> WellKeyed(fields[i].item)
    case _ => true
  }

  // ---- Canonical text: `json.dumps(value, separators=(",", ":"), ensure_ascii=False)`.

  function Escape(c: char): string {
    if c == '"' then "\\\""
    else if c == '\\' then "\\\\"
    else if c == '\n' then "\\n"
    else if c == '\r' then "\\r"
    else if c == '\t' then "\\t"
    else if c == '\U{000C}' then "\\f"
    else if c == '\U{0008}' then "\\b"
    else if c < ' ' then "\\u00" + [HexDigit(c as int / 16), HexDigit(c as int % 16)]
    else [c]
  }

  function HexDigit(n: nat): char
    requires n < 16
  {
    "0123456789abcdef"[n]
  }

  function Escaped(s: string): string {
    if s == "" then "" else Escape(s[0]) + Escaped(s[1..])
  }

  function Quoted(s: string): string {
    "\"" + Escaped(s) + "\""
  }

  function PrintInt(n: int): string {
    if n < 0 then "-" + Rational.PrintNat(-n) else Rational.PrintNat(n)
  }

  function Encode(t: Tree): string
    decreases t, 1
  {
    match t
    case Null => "null"
    case Bool(flag) => if flag then "true" else "false"
    case Int(number) => PrintInt(number)
    case Str(text) => Quoted(text)
    case Array(items) => "[" + EncodeItems(items) + "]"
    case Object(fields) => "{" + EncodeFields(fields) + "}"
  }

  function EncodeItems(items: seq<Tree>): string
    decreases items, 0
  {
    if items == [] then ""
    else if |items| == 1 then Encode(items[0])
    else Encode(items[0]) + "," + EncodeItems(items[1..])
  }

  function EncodeFields(fields: seq<Field>): string
    decreases fields, 0
  {
    if fields == [] then ""
    else
      var head := Quoted(fields[0].key) + ":" + Encode(fields[0].item);
      if |fields| == 1 then head else head + "," + EncodeFields(fields[1..])
  }

  /** Length of the UTF-8 form. */
  function Bytes(s: string): (n: nat)
    ensures n >= |s|
  {
    if s == "" then 0 else Width(s[0]) + Bytes(s[1..])
  }

  function Width(c: char): (w: nat)
    ensures 1 <= w <= 4
  {
    var code := c as int;
    if code < 0x80 then 1 else if code < 0x800 then 2 else if code < 0x1_0000 then 3 else 4
  }

  /** How many code points fit into `w` bytes of UTF-8: 7 bits into one, 5w+1 bits into more. */
  function Capacity(w: nat): nat {
    if w == 0 then 0 else if w == 1 then 128 else Power2(5 * w + 1)
  }

  function Power2(k: nat): nat {
    if k == 0 then 1 else 2 * Power2(k - 1)
  }

  /** A character takes the fewest bytes that can hold its code point. */
  lemma FewestBytes(c: char)
    ensures Capacity(Width(c) - 1) <= c as int < Capacity(Width(c))
  {
    assert Power2(5) == 32;
    assert Power2(11) == 2048;
    assert Power2(16) == 0x1_0000
      by { assert Power2(16) == 32 * Power2(11) by { assert Power2(14) == 8 * Power2(11); } }
    assert Power2(21) == 0x20_0000
      by { assert Power2(21) == 32 * Power2(16) by { assert Power2(19) == 8 * Power2(16); } }
  }

  lemma {:induction false} BytesConcat(a: string, b: string)
    ensures Bytes(a + b) == Bytes(a) + Bytes(b)
  {
    if a == "" {
      assert a + b == b;
    } else {
      BytesConcat(a[1..], b);
      assert (a + b)[1..] == a[1..] + b;
    }
  }

  /** What `loads` accepts, and so what can be encoded and digested. */
  predicate Accepted(t: Tree) {
    Bytes(Encode(t)) <= BYTE_LIMIT && WellKeyed(t) && Depth(t) <= DEPTH_LIMIT && Nodes(t) <= NODE_LIMIT
  }

  // ---- The worklist traversal.

  datatype Visit = Visit(item: Tree, depth: nat)

  /** Nodes still to be visited: the termination measure. */
  function Remaining(pending: seq<Visit>): nat {
    if pending == [] then 0
    else Remaining(pending[..|pending| - 1]) + Nodes(pending[|pending| - 1].item)
  }

  ghost predicate WithinDepth(pending: seq<Visit>) {
    forall i :: 0 <= i < |pending| ==> pending[i].depth + Depth(pending[i].item) <= DEPTH_LIMIT
  }

  function Pushed(items: seq<Tree>, depth: nat): (r: seq<Visit>)
    ensures |r| == |items|
    ensures forall i :: 0 <= i < |r| ==> r[i] == Visit(items[i], depth)
  {
    seq(|items|, i requires 0 <= i < |items| => Visit(items[i], depth))
  }

  lemma {:induction false} RemainingPushed(rest: seq<Visit>, items: seq<Tree>, depth: nat)
    ensures Remaining(rest + Pushed(items, depth)) == Remaining(rest) + NodesOfItems(items)
    decreases |items|
  {
    if items == [] {
      assert rest + Pushed(items, depth) == rest;
    } else {
      var first := [Visit(items[0], depth)];
      assert rest + Pushed(items, depth) == (rest + first) + Pushed(items[1..], depth);
      RemainingPushed(rest + first, items[1..], depth);
      assert (rest + first)[..|rest|] == rest;
    }
  }

  lemma {:induction false} FieldsAreItems(fields: seq<Field>)
    ensures NodesOfFields(fields) == NodesOfItems(Values(fields))
    ensures DepthOfFields(fields) == DepthOfItems(Values(fields))
  {
    if fields != [] {
      FieldsAreItems(fields[1..]);
      assert Values(fields)[1..] == Values(fields[1..]);
    }
  }

  lemma TreeOfItems(t: Tree)
    ensures Nodes(t) == 1 + NodesOfItems(Items(t))
    ensures Depth(t) == DepthOfItems(Items(t))
  {
    if t.Object? { FieldsAreItems(t.fields); }
  }

  lemma {:induction false} ItemsWithin(items: seq<Tree>, limit: int)
    ensures (DepthOfItems(items) <= limit) <==>
      ((items == [] ==> 0 <= limit) && forall i :: 0 <= i < |items| ==> 1 + Depth(items[i]) <= limit)
  {
    if items != [] {
      ItemsWithin(items[1..], limit);
      var rest := items[1..];
      assert forall i :: 0 < i < |items| ==> items[i] == rest[i - 1];
      assert forall i :: 0 <= i < |rest| ==> rest[i] == items[i + 1];
      assert items[1..] == [] ==> DepthOfItems(items) == 1 + Depth(items[0]);
    }
  }

  /** The stack after visiting its top. */
  function Next(rest: seq<Visit>, visit: Visit): seq<Visit> {
    rest + Pushed(Items(visit.item), visit.depth + 1)
  }

  lemma WithinDepthSplit(a: seq<Visit>, b: seq<Visit>)
    ensures WithinDepth(a + b) <==> WithinDepth(a) && WithinDepth(b)
  {
    assert forall i :: 0 <= i < |a| ==> (a + b)[i] == a[i];
    assert forall i :: 0 <= i < |b| ==> (a + b)[|a| + i] == b[i];
  }

  lemma NextStep(rest: seq<Visit>, visit: Visit)
    requires visit.depth <= DEPTH_LIMIT
    ensures Remaining(rest + [visit]) == 1 + Remaining(Next(rest, visit))
    ensures WithinDepth(rest + [visit]) <==> WithinDepth(Next(rest, visit))
  {
    var items := Items(visit.item);
    TreeOfItems(visit.item);
    assert (rest + [visit])[..|rest|] == rest;
    RemainingPushed(rest, items, visit.depth + 1);
    WithinDepthSplit(rest, [visit]);
    WithinDepthSplit(rest, Pushed(items, visit.depth + 1));
    ItemsWithin(items, DEPTH_LIMIT - visit.depth);
    assert WithinDepth([visit]) <==> visit.depth + Depth(visit.item) <= DEPTH_LIMIT by {
      assert [visit][0] == visit;
    }
    assert forall i :: 0 <= i < |items| ==> Pushed(items, visit.depth + 1)[i] == Visit(items[i], visit.depth + 1);
  }

  /**
   The stack-driven traversal: it stops, and it accepts exactly the trees within both limits,
   although it meets the nodes in no fixed order and counts them only as it goes.
  */
  method Traverse(value: Tree) returns (ok: bool)
    ensures ok <==> Depth(value) <= 24 && Nodes(value) <= 50_000
  {
    var pending := [Visit(value, 0)];
    var visits := 0;
    assert pending[..0] == [];
    while pending != []
      invariant visits + Remaining(pending) == Nodes(value)
      invariant visits <= NODE_LIMIT
      invariant WithinDepth(pending) <==> Depth(value) <= DEPTH_LIMIT
      decreases Remaining(pending)
    {
      var last := |pending| - 1;
      var visit, rest := pending[last], pending[..last];
      assert pending == rest + [visit];
      visits := visits + 1;
      if visit.depth > DEPTH_LIMIT || visits > NODE_LIMIT {
        return false;
      }
      NextStep(rest, visit);
      pending := Next(rest, visit);
    }
    return true;
  }

  /** The hook that turns the pairs of one object into a dictionary and refuses a repeated key. */
  method Pairs(fields: seq<Field>) returns (r: Result<map<string, Tree>>)
    ensures r.Ok? <==> KeysDistinct(fields)
    ensures r.Ok? ==> r.value.Keys == (set i | 0 <= i < |fields| :: fields[i].key)
    ensures r.Ok? ==> forall i :: 0 <= i < |fields| ==>
      fields[i].key in r.value && r.value[fields[i].key] == fields[i].item
  {
    var result: map<string, Tree> := map[];
    for n := 0 to |fields|
      invariant KeysDistinct(fields[..n])
      invariant result.Keys == set i | 0 <= i < n :: fields[i].key
      invariant forall i :: 0 <= i < n ==> fields[i].key in result && result[fields[i].key] == fields[i].item
    {
      if fields[n].key in result {
        var i :| 0 <= i < n && fields[i].key == fields[n].key;
        return Err(DuplicateKey);
      }
      result := result[fields[n].key := fields[n].item];
    }
    assert fields[..|fields|] == fields;
    return Ok(result);
  }

  /** The hook runs on every object of the parsed text, innermost first. */
  method RunHooks(parsed: Tree) returns (ok: bool)
    ensures ok <==> WellKeyed(parsed)
    decreases parsed
  {
    match parsed {
      case Array(items) =>
        for n := 0 to |items|
          invariant forall i :: 0 <= i < n ==> WellKeyed(items[i])
        {
          var inner := RunHooks(items[n]);
          if !inner { return false; }
        }
        return true;
      case Object(fields) =>
        for n := 0 to |fields|
          invariant forall i :: 0 <= i < n ==> WellKeyed(fields[i].item)
        {
          var inner := RunHooks(fields[n].item);
          if !inner { return false; }
        }
        var pairs := Pairs(fields);
        return pairs.Ok?;
      case _ =>
        return true;
    }
  }

  /** `loads(raw)`, given the tree that lexing `raw` yields. */
  method Loads(raw: string, parsed: Tree) returns (r: Result<Tree>)
    ensures r.Ok? <==>
      Bytes(raw) <= 2_000_000 && WellKeyed(parsed) && Depth(parsed) <= 24 && Nodes(parsed) <= 50_000
    ensures r.Ok? ==> r.value == parsed
    ensures raw == Encode(parsed) ==> (r.Ok? <==> Accepted(parsed))
  {
    if Bytes(raw) > BYTE_LIMIT { return Err(ByteLimit); }
    var distinct := RunHooks(parsed);
    if !distinct { return Err(DuplicateKey); }
    var bounded := Traverse(parsed);
    if !bounded { return Err(TraversalLimit); }
    return Ok(parsed);
  }

  // ---- Acceptance passes to every item.

  lemma {:induction false} ItemBounds(items: seq<Tree>, k: nat)
    requires k < |items|
    ensures 1 + Depth(items[k]) <= DepthOfItems(items)
    ensures Nodes(items[k]) <= NodesOfItems(items)
    ensures Bytes(Encode(items[k])) <= Bytes(EncodeItems(items))
  {
    if |items| > 1 {
      BytesConcat(Encode(items[0]) + ",", EncodeItems(items[1..]));
      BytesConcat(Encode(items[0]), ",");
      if k > 0 { ItemBounds(items[1..], k - 1); }
    }
  }

  lemma {:induction false} FieldBounds(fields: seq<Field>, k: nat)
    requires k < |fields|
    ensures 1 + Depth(fields[k].item) <= DepthOfFields(fields)
    ensures Nodes(fields[k].item) <= NodesOfFields(fields)
    ensures Bytes(Encode(fields[k].item)) <= Bytes(EncodeFields(fields))
  {
    var key, body := Quoted(fields[0].key) + ":", Encode(fields[0].item);
    BytesConcat(key, body);
    if |fields| > 1 {
      BytesConcat((key + body) + ",", EncodeFields(fields[1..]));
      BytesConcat(key + body, ",");
      if k > 0 { FieldBounds(fields[1..], k - 1); }
    }
  }

  /** A tree that `loads` accepts has only items that `loads` accepts. */
  lemma AcceptedItem(t: Tree, k: nat)
    requires Accepted(t) && k < |Items(t)|
    ensures Accepted(Items(t)[k])
  {
    match t
    case Array(items) =>
      ItemBounds(items, k);
      BytesConcat("[" + EncodeItems(items), "]");
      BytesConcat("[", EncodeItems(items));
    case Object(fields) =>
      FieldBounds(fields, k);
      BytesConcat("{" + EncodeFields(fields), "}");
      BytesConcat("{", EncodeFields(fields));
  }

  /** `t` occurs in `whole`, at any level. */
  predicate Occurs(t: Tree, whole: Tree)
    decreases whole
  {
    || t == whole
    || match whole
       case Array(items) => exists i :: 0 <= i < |items| && Occurs(t, items[i])
       case Object(fields) => exists i :: 0 <= i < |fields| && Occurs(t, fields[i].item)
       case _ => false
  }

  /** So does every subtree. */
  lemma {:induction false} AcceptedSubtree(t: Tree, whole: Tree)
    requires Accepted(whole) && Occurs(t, whole)
    ensures Accepted(t)
    decreases whole
  {
    if t != whole {
      match whole
      case Array(items) =>
        var i :| 0 <= i < |items| && Occurs(t, items[i]);
        AcceptedItem(whole, i);
        AcceptedSubtree(t, items[i]);
      case Object(fields) =>
        var i :| 0 <= i < |fields| && Occurs(t, fields[i].item);
        AcceptedItem(whole, i);
        AcceptedSubtree(t, fields[i].item);
    }
  }

  // ---- Lists of encoded rows.

  /** Characters of the encoded items one after the other, with nothing between them. */
  function TotalLength(items: seq<Tree>): nat {
    if items == [] then 0 else |Encode(items[0])| + TotalLength(items[1..])
  }

  lemma {:induction false} TotalWithin(items: seq<Tree>)
    ensures TotalLength(items) <= Bytes(EncodeItems(items))
  {
    if |items| == 1 {
      assert TotalLength(items[1..]) == 0;
    } else if |items| > 1 {
      TotalWithin(items[1..]);
      BytesConcat(Encode(items[0]) + ",", EncodeItems(items[1..]));
      BytesConcat(Encode(items[0]), ",");
    }
  }

  lemma {:induction false} PrefixBounds(items: seq<Tree>, more: seq<Tree>)
    ensures Bytes(EncodeItems(items)) <= Bytes(EncodeItems(items + more))
    ensures DepthOfItems(items) <= DepthOfItems(items + more)
    ensures NodesOfItems(items) <= NodesOfItems(items + more)
  {
    if items != [] {
      var all := items + more;
      assert all[1..] == items[1..] + more;
      PrefixBounds(items[1..], more);
      if |items| > 1 {
        BytesConcat(Encode(items[0]) + ",", EncodeItems(items[1..]));
        BytesConcat(Encode(items[0]) + ",", EncodeItems(all[1..]));
      } else if |all| > 1 {
        BytesConcat(Encode(items[0]) + ",", EncodeItems(all[1..]));
        BytesConcat(Encode(items[0]), ",");
      }
    }
  }

  /** Acceptance of an array passes to every prefix of it, and bounds its rows taken together. */
  lemma AcceptedPrefix(items: seq<Tree>, more: seq<Tree>)
    requires Accepted(Array(items + more))
    ensures Accepted(Array(items))
    ensures TotalLength(items) <= BYTE_LIMIT
  {
    PrefixBounds(items, more);
    TotalWithin(items);
    var all := items + more;
    BytesConcat("[" + EncodeItems(items), "]");
    BytesConcat("[", EncodeItems(items));
    BytesConcat("[" + EncodeItems(all), "]");
    BytesConcat("[", EncodeItems(all));
    assert forall i :: 0 <= i < |items| ==> items[i] == all[i];
  }
}
