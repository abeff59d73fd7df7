/** The canonical text determines the tree: what is digested is read back in one way only. */
module Canonical {
  import opened Wire
  import opened Models
  import Rational

  /** What can follow a value inside a larger text. */
  predicate Ends(s: string) {
    s == "" || s[0] == ',' || s[0] == ']' || s[0] == '}'
  }

  // ---- Strings.

  predicate Escapes(c: char) {
    c == '"' || c == '\\' || c < ' '
  }

  lemma EscapeShape(c: char)
    ensures !Escapes(c) ==> Escape(c) == [c]
    ensures Escapes(c) ==> |Escape(c)| >= 2 && Escape(c)[0] == '\\'
  {
  }

  lemma HexDigitOnce(m: nat, n: nat)
    requires m < 16 && n < 16 && HexDigit(m) == HexDigit(n)
    ensures m == n
  {
    var digits := "0123456789abcdef";
    assert forall i, j :: 0 <= i < j < 16 ==> digits[i] != digits[j];
  }

  /** The second character of an escape tells which it is; a long one has the code in its last two. */
  lemma EscapedOnce(c: char, d: char, p: string, q: string)
    requires Escapes(c) && Escapes(d) && Escape(c) + p == Escape(d) + q
    ensures c == d
  {
    var s, t := Escape(c) + p, Escape(d) + q;
    assert s[1] == Escape(c)[1] && t[1] == Escape(d)[1];
    if s[1] == 'u' {
      assert s[4] == Escape(c)[4] && t[4] == Escape(d)[4] && s[5] == Escape(c)[5] && t[5] == Escape(d)[5];
      HexDigitOnce(c as int / 16, d as int / 16);
      HexDigitOnce(c as int % 16, d as int % 16);
    }
  }

  lemma EscapeCancels(c: char, d: char, p: string, q: string)
    requires Escape(c) + p == Escape(d) + q
    ensures c == d && p == q
  {
    hide Escape;
    EscapeShape(c);
    EscapeShape(d);
    assert (Escape(c) + p)[0] == Escape(c)[0] && (Escape(d) + q)[0] == Escape(d)[0];
    if Escapes(c) && Escapes(d) { EscapedOnce(c, d, p, q); }
    assert p == (Escape(c) + p)[|Escape(c)|..] && q == (Escape(d) + q)[|Escape(d)|..];
  }

  lemma QuoteEscaped(c: char)
    ensures Escape(c) != "" && Escape(c)[0] != '"'
  {
  }

  lemma QuoteFirst(s: string, a: string)
    ensures var x := Escaped(s) + "\"" + a; x != "" && (x[0] == '"' <==> s == "")
  {
    hide Escape;
    if s != "" {
      QuoteEscaped(s[0]);
      assert (Escaped(s) + "\"" + a)[0] == Escape(s[0])[0];
    }
  }

  /** The closing quote is found where it was put. */
  lemma {:induction false} EscapedCancels(s: string, t: string, a: string, b: string)
    requires Escaped(s) + "\"" + a == Escaped(t) + "\"" + b
    ensures s == t && a == b
    decreases |s|
  {
    hide Escape;
    var x, y := Escaped(s) + "\"" + a, Escaped(t) + "\"" + b;
    if s == "" || t == "" {
      QuoteFirst(s, a);
      QuoteFirst(t, b);
      assert a == x[1..] && b == y[1..];
    } else {
      var p, q := Escaped(s[1..]) + "\"" + a, Escaped(t[1..]) + "\"" + b;
      assert x == Escape(s[0]) + p && y == Escape(t[0]) + q;
      EscapeCancels(s[0], t[0], p, q);
      EscapedCancels(s[1..], t[1..], a, b);
      assert s == [s[0]] + s[1..] && t == [t[0]] + t[1..];
    }
  }

  lemma QuotedCancels(s: string, t: string, a: string, b: string)
    requires Quoted(s) + a == Quoted(t) + b
    ensures s == t && a == b
  {
    hide Escaped;
    var x, y := Quoted(s) + a, Quoted(t) + b;
    assert x[1..] == Escaped(s) + "\"" + a && y[1..] == Escaped(t) + "\"" + b;
    EscapedCancels(s, t, a, b);
  }

  // ---- Numbers.

  predicate DigitAt(s: string) {
    s != "" && '0' <= s[0] <= '9'
  }

  lemma DigitsCancel(x: string, y: string, a: string, b: string)
    requires Rational.Digits(x) && Rational.Digits(y) && !DigitAt(a) && !DigitAt(b) && x + a == y + b
    ensures x == y && a == b
  {
    if |x| < |y| { Overlap(x, y, a, b); }
    if |y| < |x| { Overlap(y, x, b, a); }
    assert x == (x + a)[..|x|] && y == (y + b)[..|y|];
    assert a == (x + a)[|x|..] && b == (y + b)[|y|..];
  }

  lemma Overlap(x: string, y: string, a: string, b: string)
    requires Rational.Digits(y) && x + a == y + b && |x| < |y|
    ensures DigitAt(a)
  {
    assert |x + a| == |y + b|;
    assert a[0] == (x + a)[|x|] && y[|x|] == (y + b)[|x|];
  }

  lemma NatCancels(m: nat, n: nat, a: string, b: string)
    requires Rational.PrintNat(m) + a == Rational.PrintNat(n) + b && !DigitAt(a) && !DigitAt(b)
    ensures m == n && a == b
  {
    Rational.ParsePrintNat(m);
    Rational.ParsePrintNat(n);
    DigitsCancel(Rational.PrintNat(m), Rational.PrintNat(n), a, b);
  }

  lemma IntShape(n: int, a: string)
    ensures var p, x := Rational.PrintNat(if n < 0 then -n else n), PrintInt(n) + a;
      && x != "" && (x[0] == '-' <==> n < 0)
      && (if n < 0 then x[1..] == p + a else x == p + a)
  {
    hide Rational.PrintNat;
    Rational.ParsePrintNat(if n < 0 then -n else n);
    var p := Rational.PrintNat(if n < 0 then -n else n);
    assert ("-" + p + a)[1..] == p + a;
  }

  lemma IntCancels(m: int, n: int, a: string, b: string)
    requires PrintInt(m) + a == PrintInt(n) + b && !DigitAt(a) && !DigitAt(b)
    ensures m == n && a == b
  {
    hide *;
    IntShape(m, a);
    IntShape(n, b);
    NatCancels(if m < 0 then -m else m, if n < 0 then -n else n, a, b);
  }

  // ---- Trees.

  /** The first character of the text of a value. */
  predicate Opens(t: Tree, c: char) {
    match t
    case Null => c == 'n'
    case Bool(flag) => c == if flag then 't' else 'f'
    case Int(_) => c == '-' || '0' <= c <= '9'
    case Str(_) => c == '"'
    case Array(_) => c == '['
    case Object(_) => c == '{'
  }

  lemma EncodeOpens(t: Tree)
    ensures Encode(t) != "" && Opens(t, Encode(t)[0])
  {
    if t.Int? { Rational.ParsePrintNat(if t.number < 0 then -t.number else t.number); }
  }

  lemma SameKind(t: Tree, u: Tree, c: char)
    requires Opens(t, c) && Opens(u, c)
    ensures match t
            case Null => u == t
            case Bool(_) => u == t
            case Int(_) => u.Int?
            case Str(_) => u.Str?
            case Array(_) => u.Array?
            case Object(_) => u.Object?
  {
  }

  lemma Inside(text: string, open: string, inner: string, close: string, a: string)
    requires text == open + inner + close && |open| == 1
    ensures (text + a)[1..] == inner + close + a
  {
  }

  /** A value followed by something that ends it is read back, and so is what follows. */
  lemma {:induction false} EncodeCancels(t: Tree, u: Tree, a: string, b: string)
    requires Encode(t) + a == Encode(u) + b && Ends(a) && Ends(b)
    ensures t == u && a == b
    decreases t, 1
  {
    hide EncodeItems, EncodeFields, Quoted, PrintInt, Opens;
    EncodeOpens(t);
    EncodeOpens(u);
    var x, y := Encode(t) + a, Encode(u) + b;
    assert x[0] == Encode(t)[0] && y[0] == Encode(u)[0];
    SameKind(t, u, x[0]);
    match t {
      case Int(n) => IntCancels(n, u.number, a, b);
      case Str(s) => QuotedCancels(s, u.text, a, b);
      case Array(items) =>
        Inside(Encode(t), "[", EncodeItems(items), "]", a);
        Inside(Encode(u), "[", EncodeItems(u.items), "]", b);
        ItemsCancel(items, u.items, a, b);
      case Object(fields) =>
        Inside(Encode(t), "{", EncodeFields(fields), "}", a);
        Inside(Encode(u), "{", EncodeFields(u.fields), "}", b);
        FieldsCancel(fields, u.fields, a, b);
      case _ =>
        assert a == x[|Encode(t)|..] && b == y[|Encode(u)|..];
    }
  }

  /** What follows the first item of a list that closes with `close`. */
  function Rest(more: bool, tail: string, close: string, a: string): string {
    if more then "," + (tail + close + a) else close + a
  }

  lemma Regroup(h: string, tail: string, close: string, a: string)
    ensures h + "," + tail + close + a == h + ("," + (tail + close + a))
    ensures h + close + a == h + (close + a)
  {
    assert h + "," + tail + close + a == h + "," + (tail + close + a);
  }

  lemma ItemsSplit(items: seq<Tree>, a: string)
    requires items != []
    ensures EncodeItems(items) + "]" + a ==
            Encode(items[0]) + Rest(|items| > 1, EncodeItems(items[1..]), "]", a)
  {
    hide Encode;
    Regroup(Encode(items[0]), EncodeItems(items[1..]), "]", a);
  }

  lemma ItemsFirst(items: seq<Tree>, a: string)
    ensures var x := EncodeItems(items) + "]" + a; x != "" && (x[0] == ']' <==> items == [])
  {
    hide Encode;
    if items != [] {
      EncodeOpens(items[0]);
      ItemsSplit(items, a);
      assert (EncodeItems(items) + "]" + a)[0] == Encode(items[0])[0];
    }
  }

  lemma {:induction false} ItemsCancel(xs: seq<Tree>, ys: seq<Tree>, a: string, b: string)
    requires EncodeItems(xs) + "]" + a == EncodeItems(ys) + "]" + b
    ensures xs == ys && a == b
    decreases xs, 0
  {
    hide Encode;
    var x, y := EncodeItems(xs) + "]" + a, EncodeItems(ys) + "]" + b;
    if xs == [] || ys == [] {
      ItemsFirst(xs, a);
      ItemsFirst(ys, b);
      assert a == x[1..] && b == y[1..];
    } else {
      ItemsSplit(xs, a);
      ItemsSplit(ys, b);
      var p := Rest(|xs| > 1, EncodeItems(xs[1..]), "]", a);
      var q := Rest(|ys| > 1, EncodeItems(ys[1..]), "]", b);
      EncodeCancels(xs[0], ys[0], p, q);
      RestCancels(|xs| > 1, EncodeItems(xs[1..]), |ys| > 1, EncodeItems(ys[1..]), "]", a, b);
      if |xs| > 1 { ItemsCancel(xs[1..], ys[1..], a, b); }
      assert xs == [xs[0]] + xs[1..] && ys == [ys[0]] + ys[1..];
    }
  }

  lemma RestCancels(m: bool, s: string, n: bool, t: string, close: string, a: string, b: string)
    requires close == "]" || close == "}"
    requires Rest(m, s, close, a) == Rest(n, t, close, b)
    ensures m == n && (if m then s + close + a == t + close + b else a == b)
  {
    var x, y := Rest(m, s, close, a), Rest(n, t, close, b);
    assert x[0] == if m then ',' else close[0];
    assert y[0] == if n then ',' else close[0];
    if m {
      assert x[1..] == s + close + a && y[1..] == t + close + b;
    } else {
      assert x[1..] == a && y[1..] == b;
    }
  }

  lemma RestIs(more: bool, h: string, tail: string, close: string, a: string)
    ensures (if more then h + "," + tail + close + a else h + close + a) == h + Rest(more, tail, close, a)
  {
    Regroup(h, tail, close, a);
  }

  lemma Associate(a: string, b: string, c: string, d: string)
    ensures a + b + c + d == a + (b + (c + d))
  {
  }

  lemma FieldsSplit(fields: seq<Field>, a: string)
    requires fields != []
    ensures EncodeFields(fields) + "}" + a ==
      Quoted(fields[0].key)
      + (":" + (Encode(fields[0].item) + Rest(|fields| > 1, EncodeFields(fields[1..]), "}", a)))
  {
    hide Encode, Quoted, Rest;
    var head := Quoted(fields[0].key) + ":" + Encode(fields[0].item);
    var rest := Rest(|fields| > 1, EncodeFields(fields[1..]), "}", a);
    RestIs(|fields| > 1, head, EncodeFields(fields[1..]), "}", a);
    Associate(Quoted(fields[0].key), ":", Encode(fields[0].item), rest);
  }

  lemma FieldsFirst(fields: seq<Field>, a: string)
    ensures var x := EncodeFields(fields) + "}" + a; x != "" && (x[0] == '}' <==> fields == [])
  {
    hide Encode, Quoted;
    if fields != [] {
      QuotedOpens(fields[0].key);
      FieldsSplit(fields, a);
      assert (EncodeFields(fields) + "}" + a)[0] == Quoted(fields[0].key)[0];
    }
  }

  lemma {:induction false} FieldsCancel(xs: seq<Field>, ys: seq<Field>, a: string, b: string)
    requires EncodeFields(xs) + "}" + a == EncodeFields(ys) + "}" + b
    ensures xs == ys && a == b
    decreases xs, 0
  {
    hide Encode, Quoted;
    var x, y := EncodeFields(xs) + "}" + a, EncodeFields(ys) + "}" + b;
    if xs == [] || ys == [] {
      FieldsFirst(xs, a);
      FieldsFirst(ys, b);
      assert a == x[1..] && b == y[1..];
    } else {
      FieldsSplit(xs, a);
      FieldsSplit(ys, b);
      var p := Rest(|xs| > 1, EncodeFields(xs[1..]), "}", a);
      var q := Rest(|ys| > 1, EncodeFields(ys[1..]), "}", b);
      var s, t := Encode(xs[0].item) + p, Encode(ys[0].item) + q;
      QuotedCancels(xs[0].key, ys[0].key, ":" + s, ":" + t);
      assert s == (":" + s)[1..] && t == (":" + t)[1..];
      EncodeCancels(xs[0].item, ys[0].item, p, q);
      RestCancels(|xs| > 1, EncodeFields(xs[1..]), |ys| > 1, EncodeFields(ys[1..]), "}", a, b);
      if |xs| > 1 { FieldsCancel(xs[1..], ys[1..], a, b); }
      assert xs == [xs[0]] + xs[1..] && ys == [ys[0]] + ys[1..];
    }
  }

  lemma QuotedOpens(s: string)
    ensures Quoted(s) != "" && Quoted(s)[0] == '"'
  {
  }

  /** Two values have one canonical text only if they are the same value. */
  lemma EncodeOnce(t: Tree, u: Tree)
    ensures Encode(t) == Encode(u) <==> t == u
  {
    hide Encode;
    if Encode(t) == Encode(u) {
      assert Encode(t) + "" == Encode(t) && Encode(u) + "" == Encode(u);
      EncodeCancels(t, u, "", "");
    }
  }

  // ---- What is digested tells every field.

  lemma StringsOnce(a: seq<string>, b: seq<string>)
    requires Strings(a) == Strings(b)
    ensures a == b
  {
    assert |Strings(a).items| == |Strings(b).items|;
    forall i | 0 <= i < |a| ensures a[i] == b[i] {
      assert Strings(a).items[i] == Strings(b).items[i];
    }
  }

  lemma StageNamesDiffer(s: Stage, t: Stage)
    requires StageName(s) == StageName(t)
    ensures s == t
  {
    var formation, verification, transfer := StageName(Formation), StageName(Verification), StageName(Transfer);
    var refresh, maintenance, use := StageName(Refresh), StageName(Maintenance), StageName(Use);
    assert formation[0] == 'f' && verification[0] == 'v' && transfer[0] == 't' && refresh[0] == 'r';
    assert maintenance[0] == 'm' && use[0] == 'u';
  }

  lemma StatusNamesDiffer(s: Status, t: Status)
    requires StatusName(s) == StatusName(t)
    ensures s == t
  {
    var received, timeout, lost := StatusName(Received), StatusName(Timeout), StatusName(Lost);
    assert received[0] == 'r' && timeout[0] == 't' && lost[0] == 'u';
  }

  lemma CostTold(c: Cost, d: Cost)
    requires CostTree(c) == CostTree(d)
    ensures c == d
  {
    hide StageName;
    assert CostTree(c).fields[0] == CostTree(d).fields[0] && CostTree(c).fields[1] == CostTree(d).fields[1];
    assert CostTree(c).fields[2] == CostTree(d).fields[2];
    StageNamesDiffer(c.stage, d.stage);
  }

  lemma UnitlessTold(c: Cost, d: Cost)
    requires UnitlessTree(c) == UnitlessTree(d)
    ensures c == d
  {
    hide StageName;
    assert UnitlessTree(c).fields[0] == UnitlessTree(d).fields[0];
    assert UnitlessTree(c).fields[1] == UnitlessTree(d).fields[1];
    assert UnitlessTree(c).fields[2] == UnitlessTree(d).fields[2];
    StageNamesDiffer(c.stage, d.stage);
  }

  lemma CostsTold(a: seq<Cost>, b: seq<Cost>)
    requires CostTrees(a) == CostTrees(b)
    ensures a == b
  {
    hide CostTree;
    assert |CostTrees(a)| == |CostTrees(b)|;
    forall i | 0 <= i < |a| ensures a[i] == b[i] {
      assert CostTrees(a)[i] == CostTrees(b)[i];
      CostTold(a[i], b[i]);
    }
  }

  lemma ContextTold(c: Context, d: Context)
    requires ContextTree(c) == ContextTree(d)
    ensures c == d
  {
    hide ContextTree;
    ContextLists(c, d);
    ContextNames(c, d);
  }

  lemma ContextLists(c: Context, d: Context)
    requires ContextTree(c) == ContextTree(d)
    ensures c.checks == d.checks && c.dependencies == d.dependencies && c.inputs == d.inputs
    ensures c.restrictions == d.restrictions && c.expose == d.expose
  {
    hide Strings;
    var x, y := ContextTree(c).fields, ContextTree(d).fields;
    assert x[0] == y[0] && x[3] == y[3] && x[5] == y[5] && x[6] == y[6] && x[10] == y[10];
    StringsOnce(c.checks, d.checks);
    StringsOnce(c.dependencies, d.dependencies);
    StringsOnce(c.inputs, d.inputs);
    StringsOnce(c.restrictions, d.restrictions);
  }

  lemma ContextNames(c: Context, d: Context)
    requires ContextTree(c) == ContextTree(d)
    ensures c.clock == d.clock && c.context == d.context && c.evaluator == d.evaluator && c.mission == d.mission
    ensures c.protocol == d.protocol && c.receiver == d.receiver && c.taskFamily == d.taskFamily
    ensures c.toolVersion == d.toolVersion && c.workspace == d.workspace
  {
    hide Strings;
    var x, y := ContextTree(c).fields, ContextTree(d).fields;
    assert x[1] == y[1] && x[2] == y[2] && x[4] == y[4] && x[7] == y[7] && x[8] == y[8] && x[9] == y[9];
    assert x[11] == y[11] && x[12] == y[12] && x[14] == y[14];
  }

  lemma QualificationTold(p: Qualification, q: Qualification)
    requires QualificationTree(p) == QualificationTree(q)
    ensures p == q
  {
    hide ContextTree, CostTrees;
    var x, y := QualificationTree(p).fields, QualificationTree(q).fields;
    assert forall i :: 0 <= i < 17 ==> x[i] == y[i];
    assert x[0].item == p.candidate && x[1].item == ContextTree(p.context) && x[2].item == Array(CostTrees(p.costs));
    assert x[3].item == Int(p.cutoff) && x[4].item == p.evaluation && x[6].item == p.formation;
    assert x[7].item == p.mapping && x[8].item == Str(p.memoryId) && x[9].item == p.offer && x[11].item == p.training;
    assert x[12].item == Str(p.updateId) && x[13].item == Int(p.validFrom) && x[14].item == Int(p.validUntil);
    assert x[16].item == Str(p.workflowDigest);
    ContextTold(p.context, q.context);
    CostsTold(p.costs, q.costs);
  }

  predicate SameDigest(d: Digest, e: Digest) {
    DigestTree(d) == DigestTree(e)
  }

  /** The same data of the same kind, as far as digests and ids print the same. */
  predicate SameData(b: Body, c: Body) {
    match b
    case PayCost(x) => c == PayCost(x)
    case NoteCost(x) => c == NoteCost(x)
    case Admit(q) => c == Admit(q)
    case Invalidate(a, d, i, r) => c.Invalidate? && SameDigest(c.context, d) && c == Invalidate(a, c.context, i, r)
    case Allege(a, d, i, r) => c.Allege? && SameDigest(c.context, d) && c == Allege(a, c.context, i, r)
    case Withdraw(d, r) => c == Withdraw(d, r)
    case Expose(d, i) => c.Expose? && SameDigest(c.qualification, d) && c.input == i
    case Intend(n) =>
      && c.Intend? && SameDigest(c.intent.qualification, n.qualification) && SameDigest(c.intent.snapshot, n.snapshot)
      && c.intent.input == n.input && c.intent.action == n.action && c.intent.cost == n.cost
    case Attempt(i) => c.Attempt? && IdText(c.of) == IdText(i)
    case Outcome(i, o, s) => c.Outcome? && IdText(c.of) == IdText(i) && c.output == o && c.status == s
    case Check(i, k) => c.Check? && IdText(c.of) == IdText(i) && c.checker == k
    case Reconcile(i) => c.Reconcile? && IdText(c.of) == IdText(i)
    case Correction(t) => c == Correction(t)
    case Malformed(_, _) => true
  }

  /** A cost without its unit has one field less. */
  lemma KindsDiffer(b: Body, c: Body)
    requires KindName(b) == KindName(c) && BodyTree(b) == BodyTree(c) && !b.Malformed? && !c.Malformed?
    ensures match b
            case PayCost(_) => c.PayCost?
            case NoteCost(_) => c.NoteCost?
            case Admit(_) => c.Admit?
            case Invalidate(_, _, _, _) => c.Invalidate?
            case Allege(_, _, _, _) => c.Allege?
            case Withdraw(_, _) => c.Withdraw?
            case Expose(_, _) => c.Expose?
            case Intend(_) => c.Intend?
            case Attempt(_) => c.Attempt?
            case Outcome(_, _, _) => c.Outcome?
            case Check(_, _) => c.Check?
            case Reconcile(_) => c.Reconcile?
            case Correction(_) => c.Correction?
            case Malformed(_, _) => true
  {
    hide BodyTree;
    Letters(b);
    Letters(c);
    if b.PayCost? && c.NoteCost? { UnitTells(b.cost, c.cost, b, c); }
    if b.NoteCost? && c.PayCost? { UnitTells(c.cost, b.cost, c, b); }
  }

  lemma UnitTells(x: Cost, y: Cost, b: Body, c: Body)
    requires b == PayCost(x) && c == NoteCost(y)
    ensures BodyTree(b) != BodyTree(c)
  {
    assert |CostTree(x).fields| == 4 && |UnitlessTree(y).fields| == 3;
  }

  /** Two letters of a kind, and its length, tell it from the others. */
  lemma Letters(b: Body)
    ensures var k := KindName(b);
      match b
      case PayCost(_) => |k| == 4
      case NoteCost(_) => |k| == 4
      case Admit(_) => |k| == 5
      case Invalidate(_, _, _, _) => |k| == 10 && k[0] == 'i'
      case Allege(_, _, _, _) => |k| == 10 && k[0] == 'a'
      case Withdraw(_, _) => |k| == 8 && k[0] == 'w'
      case Expose(_, _) => |k| == 8 && k[0] == 'e'
      case Intend(_) => |k| == 6
      case Attempt(_) => |k| == 7 && k[0] == 'a'
      case Outcome(_, _, _) => |k| == 7 && k[0] == 'o'
      case Check(_, _) => |k| == 7 && k[0] == 'c'
      case Reconcile(_) => |k| == 10 && k[0] == 'r'
      case Correction(_) => |k| == 10 && k[0] == 'c'
      case Malformed(_, _) => true
  {
  }

  lemma ScopeTold(a: string, d: Digest, i: string, r: string, b: string, e: Digest, j: string, s: string)
    requires ScopeTree(a, d, i, r) == ScopeTree(b, e, j, s)
    ensures a == b && SameDigest(d, e) && i == j && r == s
  {
    var x, y := ScopeTree(a, d, i, r).fields, ScopeTree(b, e, j, s).fields;
    assert x[0] == y[0] && x[1] == y[1] && x[2] == y[2] && x[3] == y[3];
  }

  lemma DataTold(b: Body, c: Body)
    requires KindName(b) == KindName(c) && BodyTree(b) == BodyTree(c) && !b.Malformed? && !c.Malformed?
    ensures SameData(b, c)
  {
    hide CostTree, UnitlessTree, QualificationTree, ScopeTree, IdText, DigestTree, StatusName, KindName;
    KindsDiffer(b, c);
    var x, y := BodyTree(b), BodyTree(c);
    match b {
      case PayCost(p) => CostTold(p, c.cost);
      case NoteCost(p) => UnitlessTold(p, c.cost);
      case Admit(q) => QualificationTold(q, c.q);
      case Invalidate(a, d, i, r) => ScopeTold(a, d, i, r, c.artifact, c.context, c.input, c.reason);
      case Allege(a, d, i, r) => ScopeTold(a, d, i, r, c.artifact, c.context, c.input, c.reason);
      case Withdraw(d, r) => assert x.fields[0] == y.fields[0] && x.fields[1] == y.fields[1];
      case Expose(d, i) => assert x.fields[0] == y.fields[0] && x.fields[1] == y.fields[1];
      case Intend(n) =>
        assert x.fields[0] == y.fields[0] && x.fields[1] == y.fields[1] && x.fields[2] == y.fields[2];
        assert x.fields[3] == y.fields[3] && x.fields[4] == y.fields[4];
      case Attempt(i) => assert x.fields[0] == y.fields[0];
      case Outcome(i, o, s) =>
        assert x.fields[0] == y.fields[0] && x.fields[1] == y.fields[1] && x.fields[2] == y.fields[2];
        StatusNamesDiffer(s, c.status);
      case Check(i, k) => assert x.fields[0] == y.fields[0] && x.fields[1] == y.fields[1];
      case Reconcile(i) => assert x.fields[0] == y.fields[0];
      case Correction(t) =>
    }
  }

  /**
   Entries whose canonical texts are equal have the same kind, data, time, and printed id and parent: the
   text that is digested leaves nothing of an entry out.
  */
  lemma EntryTold(e: Entry, f: Entry)
    requires Encode(EntryTree(e)) == Encode(EntryTree(f)) && !e.body.Malformed? && !f.body.Malformed?
    ensures IdText(e.id) == IdText(f.id) && e.time == f.time && SameDigest(e.previous, f.previous)
    ensures SameData(e.body, f.body)
  {
    hide Encode, BodyTree, KindName, DigestTree, IdText, SameData;
    EncodeOnce(EntryTree(e), EntryTree(f));
    var x, y := EntryTree(e).fields, EntryTree(f).fields;
    assert x[0] == y[0] && x[1] == y[1] && x[2] == y[2] && x[3] == y[3] && x[4] == y[4];
    DataTold(e.body, f.body);
  }
}
