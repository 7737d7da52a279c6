/** The trees cJSON.c prints and parses, and the text it prints for them. */
module JsonTree {
  import opened Bytes
  import opened JsonStrings
  import opened JsonNumbers

  /** A tree; the children of an array or object hang in a list, as they do in memory. */
  datatype Value =
    | Null
    | False
    | True
    | Number(value: real)
    | String(s: seq<byte>)
    | Array(items: Items)
    | Object(members: Members)

  datatype Items = NoItems | Item(head: Value, tail: Items)

  datatype Members = NoMembers | Member(key: seq<byte>, value: Value, rest: Members)

  const NESTING_LIMIT := 1000

  function Max(a: nat, b: nat): nat { if a < b then b else a }

  /** How many arrays and objects lie inside one another. */
  function Nesting(v: Value): nat {
    match v
    case Array(items) => 1 + NestingItems(items)
    case Object(members) => 1 + NestingMembers(members)
    case _ => 0
  }

  function NestingItems(items: Items): nat {
    if items.NoItems? then 0 else Max(Nesting(items.head), NestingItems(items.tail))
  }

  function NestingMembers(members: Members): nat {
    if members.NoMembers? then 0 else Max(Nesting(members.value), NestingMembers(members.rest))
  }

  /** What the text covers: numbers of the range of int, and strings and keys as C holds them. */
  predicate Printable(v: Value) {
    match v
    case Number(x) => x == IntOf(x) as real
    case String(s) => NulFree(s)
    case Array(items) => PrintableItems(items)
    case Object(members) => PrintableMembers(members)
    case _ => true
  }

  predicate PrintableItems(items: Items) { items.Item? ==> Printable(items.head) && PrintableItems(items.tail) }

  predicate PrintableMembers(members: Members) {
    members.Member? ==> NulFree(members.key) && Printable(members.value) && PrintableMembers(members.rest)
  }

  const NULL_TEXT: seq<byte> := [110, 117, 108, 108]
  const FALSE_TEXT: seq<byte> := [102, 97, 108, 115, 101]
  const TRUE_TEXT: seq<byte> := [116, 114, 117, 101]

  function Tabs(n: nat): (t: seq<byte>)
    ensures |t| == n && forall i :: 0 <= i < n ==> t[i] == TAB
  {
    seq(n, _ => TAB)
  }

  /** The text of a value printed at a depth. */
  function Text(v: Value, depth: nat, format: bool): seq<byte>
    decreases v, 0
  {
    match v
    case Null => NULL_TEXT
    case False => FALSE_TEXT
    case True => TRUE_TEXT
    case Number(x) => IntText(IntOf(x))
    case String(s) => Quoted(s)
    case Array(items) => ArrayText(items, depth, format)
    case Object(members) => ObjectText(members, depth, format)
  }

  function ArrayText(items: Items, depth: nat, format: bool): seq<byte>
    decreases items, 3
  {
    [OPEN_BRACKET] + ItemsText(items, depth + 1, format) + [CLOSE_BRACKET]
  }

  function ObjectText(members: Members, depth: nat, format: bool): seq<byte>
    decreases members, 3
  {
    Opening(format) + MembersText(members, depth + 1, format) + Closing(depth, format)
  }

  function Closing(depth: nat, format: bool): seq<byte> { Indent(depth, format) + [CLOSE_BRACE] }

  function Opening(format: bool): seq<byte> { if format then [OPEN_BRACE, NEWLINE] else [OPEN_BRACE] }

  function Indent(depth: nat, format: bool): seq<byte> { if format then Tabs(depth) else [] }

  /** What stands between one item and the next. */
  function Comma(last: bool, format: bool): seq<byte> {
    if last then [] else if format then [COMMA, SPACE] else [COMMA]
  }

  function ItemsText(items: Items, depth: nat, format: bool): seq<byte>
    decreases items, 1
  {
    if items.NoItems? then [] else ItemText(items, depth, format) + ItemsText(items.tail, depth, format)
  }

  /** An item and the comma behind it, if there is one. */
  function ItemText(items: Items, depth: nat, format: bool): seq<byte>
    requires items.Item?
    decreases items, 0
  {
    Text(items.head, depth, format) + Comma(items.tail.NoItems?, format)
  }

  function Colon(format: bool): seq<byte> { if format then [COLON, TAB] else [COLON] }

  /** What stands between one member and the next, or behind the last. */
  function MemberEnd(last: bool, format: bool): seq<byte> {
    (if last then [] else [COMMA]) + (if format then [NEWLINE] else [])
  }

  function MembersText(members: Members, depth: nat, format: bool): seq<byte>
    decreases members, 2
  {
    if members.NoMembers? then [] else MemberText(members, depth, format) + MembersText(members.rest, depth, format)
  }

  /** A member and the comma behind it, if there is one. */
  function MemberText(members: Members, depth: nat, format: bool): seq<byte>
    requires members.Member?
    decreases members, 1
  {
    KeyText(members.key, depth, format) + ValueText(members, depth, format)
  }

  function KeyText(key: seq<byte>, depth: nat, format: bool): seq<byte> {
    Indent(depth, format) + (Quoted(key) + Colon(format))
  }

  function ValueText(members: Members, depth: nat, format: bool): seq<byte>
    requires members.Member?
    decreases members, 0
  {
    Text(members.value, depth, format) + MemberEnd(members.rest.NoMembers?, format)
  }

  // ---- building lists from their front ----

  function Join(a: Items, b: Items): Items { if a.NoItems? then b else Item(a.head, Join(a.tail, b)) }

  function JoinMembers(a: Members, b: Members): Members {
    if a.NoMembers? then b else Member(a.key, a.value, JoinMembers(a.rest, b))
  }

  lemma {:induction false} JoinTwice(a: Items, v: Value, b: Items)
    ensures Join(a, Item(v, b)) == Join(Join(a, Item(v, NoItems)), b)
  {
    if a.NoItems? {
    } else {
      JoinTwice(a.tail, v, b);
    }
  }

  lemma {:induction false} JoinMembersTwice(a: Members, key: seq<byte>, v: Value, b: Members)
    ensures JoinMembers(a, Member(key, v, b)) == JoinMembers(JoinMembers(a, Member(key, v, NoMembers)), b)
  {
    if a.NoMembers? {
    } else {
      JoinMembersTwice(a.rest, key, v, b);
    }
  }

  lemma {:induction false} JoinNone(a: Items)
    ensures Join(a, NoItems) == a
  {
    if a.NoItems? {
    } else {
      JoinNone(a.tail);
    }
  }

  lemma {:induction false} JoinMembersNone(a: Members)
    ensures JoinMembers(a, NoMembers) == a
  {
    if a.NoMembers? {
    } else {
      JoinMembersNone(a.rest);
    }
  }
}
