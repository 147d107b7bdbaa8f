/** The shape of the generated text. The builder's output is a sequence of
    tokens: finished lines, and the opening and closing of a braced block
    (the `Brace()` scope helper, whose exact braces and indentation are not
    modelled). The emitters' specifications describe their output as a tree
    of blocks, which is flattened into tokens. */
module GlueText {
  import opened SemanticTypes

  datatype Token = Line(text: string) | Open(head: string) | Close

  /** A line of text, or a braced block with its head (the text before the brace) and body. */
  datatype Node = Text(line: string) | Block(head: string, body: seq<Node>)

  /** The tokens a tree of blocks is written as. */
  function Flatten(ns: seq<Node>): seq<Token>
    decreases ns
  {
    if ns == [] then []
    else
      var first := match ns[0]
        case Text(s) => [Line(s)]
        case Block(h, b) => [Open(h)] + Flatten(b) + [Close];
      first + Flatten(ns[1..])
  }

  /** Scans tokens from nesting depth `depth`: the depth at the end, or None
      when a Close has no Open to match. */
  function Scan(ts: seq<Token>, depth: nat): Option<nat>
    decreases |ts|
  {
    if ts == [] then Some(depth)
    else match ts[0]
      case Line(_) => Scan(ts[1..], depth)
      case Open(_) => Scan(ts[1..], depth + 1)
      case Close => if depth == 0 then None else Scan(ts[1..], depth - 1)
  }

  /** Every Close matches an earlier Open and every Open is closed. */
  predicate Balanced(ts: seq<Token>) {
    Scan(ts, 0) == Some(0)
  }

  lemma {:induction false} FlattenAppend(a: seq<Node>, b: seq<Node>)
    ensures Flatten(a + b) == Flatten(a) + Flatten(b)
    decreases |a|
  {
    if a == [] {
      assert a + b == b;
    } else {
      assert (a + b)[0] == a[0];
      assert (a + b)[1..] == a[1..] + b;
      FlattenAppend(a[1..], b);
    }
  }

  /** Scanning a token followed by the rest. */
  lemma ScanCons(t: Token, ts: seq<Token>, depth: nat)
    ensures Scan([t] + ts, depth) ==
              match t
              case Line(_) => Scan(ts, depth)
              case Open(_) => Scan(ts, depth + 1)
              case Close => if depth == 0 then None else Scan(ts, depth - 1)
  {
    assert ([t] + ts)[0] == t && ([t] + ts)[1..] == ts;
  }

  /** A flattened tree leaves the nesting depth where it found it, whatever follows it. */
  lemma {:induction false} FlattenScan(ns: seq<Node>, rest: seq<Token>, depth: nat)
    ensures Scan(Flatten(ns) + rest, depth) == Scan(rest, depth)
    decreases ns
  {
    if ns == [] {
      assert Flatten(ns) + rest == rest;
    } else {
      var tail := Flatten(ns[1..]) + rest;
      FlattenCons(ns);
      assert Flatten(ns) + rest == Flatten([ns[0]]) + tail;
      FlattenScan(ns[1..], rest, depth);
      NodeScan(ns[0], tail, depth);
    }
  }

  /** One flattened node leaves the nesting depth where it found it. */
  lemma {:induction false} NodeScan(n: Node, rest: seq<Token>, depth: nat)
    ensures Scan(Flatten([n]) + rest, depth) == Scan(rest, depth)
    decreases n
  {
    match n
    case Text(s) =>
      FlattenText(s);
      ScanCons(Line(s), rest, depth);
    case Block(h, b) =>
      var closed := [Close] + rest;
      FlattenBlock(h, b);
      assert Flatten([n]) + rest == [Open(h)] + (Flatten(b) + closed);
      ScanCons(Open(h), Flatten(b) + closed, depth);
      FlattenScan(b, closed, depth + 1);
      ScanCons(Close, rest, depth + 1);
  }

  /** The first node's tokens, then the rest's. */
  lemma FlattenCons(ns: seq<Node>)
    requires ns != []
    ensures Flatten(ns) == Flatten([ns[0]]) + Flatten(ns[1..])
  {
    assert [ns[0]][1..] == [];
  }

  lemma FlattenText(s: string)
    ensures Flatten([Text(s)]) == [Line(s)]
  {
    assert [Text(s)][1..] == [];
  }

  lemma FlattenBlock(h: string, body: seq<Node>)
    ensures Flatten([Block(h, body)]) == [Open(h)] + Flatten(body) + [Close]
  {
    assert [Block(h, body)][1..] == [];
  }

  /** Plain lines flatten to one Line token each. */
  lemma {:induction false} FlattenTexts(ns: seq<Node>)
    requires forall i :: 0 <= i < |ns| ==> ns[i].Text?
    ensures |Flatten(ns)| == |ns| && forall i :: 0 <= i < |ns| ==> Flatten(ns)[i] == Line(ns[i].line)
    decreases |ns|
  {
    if ns != [] {
      FlattenTexts(ns[1..]);
    }
  }

  /** Flattening a node list one node at a time. */
  lemma FlattenSnoc(ns: seq<Node>, n: Node)
    ensures Flatten(ns + [n]) == Flatten(ns) + Flatten([n])
  {
    FlattenAppend(ns, [n]);
  }

  /** A block after `pre`: its head, its body, its closing. */
  lemma BlockTokens(pre: seq<Token>, h: string, body: seq<Node>)
    ensures pre + Flatten([Block(h, body)]) == pre + [Open(h)] + Flatten(body) + [Close]
  {
    FlattenBlock(h, body);
  }

  /** A block of two nodes after `pre`. */
  lemma BlockTokens2(pre: seq<Token>, h: string, x: Node, y: Node)
    ensures pre + Flatten([Block(h, [x, y])]) == pre + [Open(h)] + Flatten([x]) + Flatten([y]) + [Close]
  {
    FlattenBlock(h, [x, y]);
    assert [x, y] == [x] + [y];
    FlattenAppend([x], [y]);
  }

  /** A block whose body is three runs of nodes, after `pre`. */
  lemma BlockTokens3(pre: seq<Token>, h: string, a: seq<Node>, b: seq<Node>, c: seq<Node>)
    ensures pre + Flatten([Block(h, a + b + c)]) ==
              pre + [Open(h)] + Flatten(a) + Flatten(b) + Flatten(c) + [Close]
  {
    var o, x, y, z := [Open(h)], Flatten(a), Flatten(b), Flatten(c);
    FlattenBlock(h, a + b + c);
    FlattenAppend(a + b, c);
    FlattenAppend(a, b);
    Assoc(pre, o + (x + y + z), [Close]);
    Assoc(pre, o, x + y + z);
    Assoc(pre + o, x + y, z);
    Assoc(pre + o, x, y);
  }

  /** Three lines after `pre`. */
  lemma TextsTokens3(pre: seq<Token>, s1: string, s2: string, s3: string)
    ensures pre + Flatten([Text(s1), Text(s2), Text(s3)]) == pre + [Line(s1)] + [Line(s2)] + [Line(s3)]
  {
    FlattenTexts([Text(s1), Text(s2), Text(s3)]);
  }

  /** Two lines after `pre`. */
  lemma TextsTokens2(pre: seq<Token>, s1: string, s2: string)
    ensures pre + Flatten([Text(s1), Text(s2)]) == pre + [Line(s1)] + [Line(s2)]
  {
    FlattenTexts([Text(s1), Text(s2)]);
  }

  /** One more line at the end of a node list. */
  lemma SnocText(pre: seq<Token>, ns: seq<Node>, s: string)
    ensures pre + Flatten(ns + [Text(s)]) == pre + Flatten(ns) + [Line(s)]
  {
    FlattenSnoc(ns, Text(s));
    FlattenText(s);
  }

  /** Whatever the tree, its tokens are balanced: Brace() always closes what it opens. */
  lemma FlattenBalanced(ns: seq<Node>)
    ensures Balanced(Flatten(ns))
  {
    FlattenScan(ns, [], 0);
    assert Flatten(ns) + [] == Flatten(ns);
  }

  /** A parameter or variable name as C# allows it: non-empty, without commas. */
  predicate IsName(s: string) {
    s != "" && ',' !in s
  }

  /** Names joined by ", ", with no leading or trailing separator. */
  function Join(names: seq<string>): string
    decreases |names|
  {
    if |names| == 0 then ""
    else if |names| == 1 then names[0]
    else Join(names[..|names| - 1]) + ", " + names[|names| - 1]
  }

  /** Joining one more name, after text `pre`. */
  lemma JoinNext(pre: string, names: seq<string>, i: nat)
    requires 1 <= i < |names|
    ensures pre + Join(names[..i + 1]) == pre + Join(names[..i]) + ", " + names[i]
  {
    assert names[..i + 1][..i] == names[..i];
    Assoc(pre, Join(names[..i]) + ", ", names[i]);
    Assoc(pre, Join(names[..i]), ", ");
  }

  /** The position of the last ", " in `s`. */
  function LastSeparator(s: string): (r: Option<nat>)
    ensures r.Some? ==> r.value + 2 <= |s| && s[r.value..r.value + 2] == ", "
    decreases |s|
  {
    if |s| < 2 then None
    else if s[|s| - 2..] == ", " then Some(|s| - 2)
    else LastSeparator(s[..|s| - 1])
  }

  /** Splits a joined list back into its names. */
  function Split(s: string): seq<string>
    decreases |s|
  {
    if s == "" then []
    else match LastSeparator(s)
      case None => [s]
      case Some(i) => Split(s[..i]) + [s[i + 2..]]
  }

  lemma {:induction false} LastSeparatorNone(b: string)
    requires ',' !in b
    ensures LastSeparator(b) == None
    decreases |b|
  {
    if |b| >= 2 {
      assert b[|b| - 2] in b;
      assert b[..|b| - 1] <= b;
      LastSeparatorNone(b[..|b| - 1]);
    }
  }

  lemma {:induction false} LastSeparatorAfter(a: string, b: string)
    requires ',' !in b
    ensures LastSeparator(a + ", " + b) == Some(|a|)
    decreases |b|
  {
    var s := a + ", " + b;
    if b != [] {
      assert s[|s| - 2] != ',' by {
        if |b| >= 2 { assert s[|s| - 2] == b[|b| - 2]; assert b[|b| - 2] in b; }
      }
      assert s[..|s| - 1] == a + ", " + b[..|b| - 1];
      assert b[..|b| - 1] <= b;
      LastSeparatorAfter(a, b[..|b| - 1]);
    } else {
      assert s[|s| - 2..] == ", ";
    }
  }

  /** Splitting at the last separator takes off the name after it. */
  lemma SplitAfter(a: string, b: string)
    requires ',' !in b
    ensures Split(a + ", " + b) == Split(a) + [b]
  {
    LastSeparatorAfter(a, b);
    var s := a + ", " + b;
    assert s[..|a|] == a;
    assert s[|a| + 2..] == b;
  }

  /** Splitting a joined list of names gives the names back. */
  lemma {:induction false} SplitJoin(names: seq<string>)
    requires forall i :: 0 <= i < |names| ==> IsName(names[i])
    ensures Split(Join(names)) == names
    decreases |names|
  {
    if |names| == 1 {
      LastSeparatorNone(names[0]);
    } else if |names| > 1 {
      var init, last := names[..|names| - 1], names[|names| - 1];
      SplitAfter(Join(init), last);
      SplitJoin(init);
      assert names == init + [last];
    }
  }

  /** Joined names are empty exactly when there are no names. */
  lemma {:induction false} JoinEmpty(names: seq<string>)
    requires forall i :: 0 <= i < |names| ==> IsName(names[i])
    ensures Join(names) == "" <==> names == []
    decreases |names|
  {
    if |names| > 1 {
      JoinEmpty(names[..|names| - 1]);
    }
  }

  function DigitChar(d: nat): char
    requires d < 10
  {
    "0123456789"[d]
  }

  function Digits(n: nat): string
    decreases n
  {
    if n < 10 then [DigitChar(n)] else Digits(n / 10) + [DigitChar(n % 10)]
  }

  /** An int as `StringBuilder.Append(int)` writes it. */
  function Decimal(n: int): string {
    if n < 0 then "-" + Digits(-n) else Digits(n)
  }
}
