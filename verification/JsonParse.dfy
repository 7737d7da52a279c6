/** The parser of cJSON.c as functions of the input, a position in it and the nesting depth. A result
    carries the position behind what was parsed; `None` is a failed parse. */
module JsonParse {
  import opened Bytes
  import opened JsonStrings
  import opened JsonStringProofs
  import opened JsonNumbers
  import opened JsonTree

  /** The first position from `p` on that holds no white space, or the end. */
  function Blank(c: seq<byte>, p: nat): (q: nat)
    requires p <= |c|
    ensures p <= q <= |c|
    decreases |c| - p
  {
    if p < |c| && c[p] <= 32 then Blank(c, p + 1) else p
  }

  /** buffer_skip_whitespace. At the end of the input it steps back. */
  function Skip(c: seq<byte>, p: nat): (q: nat)
    ensures q >= p && (p < |c| ==> q < |c|) && (p >= |c| ==> q == p)
  {
    if p >= |c| then p
    else if Blank(c, p) == |c| && c[p] <= 32 then |c| - 1
    else Blank(c, p)
  }

  lemma {:induction false} BlankStops(c: seq<byte>, p: nat)
    requires p <= |c|
    ensures forall i :: p <= i < Blank(c, p) ==> c[i] <= 32
    ensures Blank(c, p) < |c| ==> c[Blank(c, p)] > 32
    decreases |c| - p
  {
    if p == |c| || c[p] > 32 {
    } else {
      BlankStops(c, p + 1);
    }
  }

  /** Skipping passes over white space alone. Where it stops there is none, unless the input ended: then
      it has stepped back onto the last byte, white space itself, and never behind where it began. */
  lemma SkipStops(c: seq<byte>, p: nat)
    requires p < |c|
    ensures p <= Skip(c, p) < |c| && forall i :: p <= i < Skip(c, p) ==> c[i] <= 32
    ensures c[Skip(c, p)] <= 32 <==> forall i :: p <= i < |c| ==> c[i] <= 32
    ensures c[Skip(c, p)] <= 32 ==> Skip(c, p) == |c| - 1
  {
    BlankStops(c, p);
  }

  predicate Is(c: seq<byte>, p: nat, b: byte) { p < |c| && c[p] == b }

  /** What was parsed, and the position behind it. */
  datatype ValueAt = NoValue | ValueAt(value: Value, end: nat)

  datatype ItemsAt = NoItemsAt | ItemsAt(items: Items, end: nat)

  datatype MembersAt = NoMembersAt | MembersAt(members: Members, end: nat)

  /** parse_value. What is parsed is never empty. */
  function ParseValue(c: seq<byte>, at: nat, depth: nat): (r: ValueAt)
    ensures r.ValueAt? ==> at < r.end <= |c|
    decreases |c| - at, 2
  {
    if Starts(c, at, NULL_TEXT) then ValueAt(Null, at + 4)
    else if Starts(c, at, FALSE_TEXT) then ValueAt(False, at + 5)
    else if Starts(c, at, TRUE_TEXT) then ValueAt(True, at + 4)
    else if Is(c, at, QUOTE) then
      var r := ParseString(c, at);
      if r.NoString? then NoValue else ValueAt(String(r.s), r.end)
    else if at < |c| && (c[at] == MINUS || IsDigit(c[at])) then
      var r := ParseNumber(c, at);
      if r.NoNumber? then NoValue else ValueAt(Number(r.value), r.end)
    else if Is(c, at, OPEN_BRACKET) then ParseArray(c, at, depth)
    else if Is(c, at, OPEN_BRACE) then ParseObject(c, at, depth)
    else NoValue
  }

  /** parse_array. */
  function ParseArray(c: seq<byte>, at: nat, depth: nat): (r: ValueAt)
    requires Is(c, at, OPEN_BRACKET)
    ensures r.ValueAt? ==> at < r.end <= |c|
    decreases |c| - at, 1
  {
    if depth >= NESTING_LIMIT then NoValue
    else
      var p := Skip(c, at + 1);
      if Is(c, p, CLOSE_BRACKET) then ValueAt(Array(NoItems), p + 1)
      else
        var r := ParseItems(c, p, depth + 1);
        if r.NoItemsAt? then NoValue else ValueAt(Array(r.items), r.end)
  }

  /** The loop of parse_array, from behind the opening bracket or a comma, to behind the closing bracket. */
  function ParseItems(c: seq<byte>, p: nat, depth: nat): (r: ItemsAt)
    ensures r.ItemsAt? ==> p < r.end <= |c|
    decreases |c| - p, 3
  {
    var v := ParseValue(c, Skip(c, p), depth);
    if v.NoValue? then NoItemsAt
    else
      var r := MoreItems(c, Skip(c, v.end), depth);
      if r.NoItemsAt? then NoItemsAt else ItemsAt(Item(v.value, r.items), r.end)
  }

  /** The end of a turn of that loop. */
  function MoreItems(c: seq<byte>, q: nat, depth: nat): (r: ItemsAt)
    ensures r.ItemsAt? ==> q < r.end <= |c|
    decreases |c| - q, 0
  {
    if Is(c, q, COMMA) then ParseItems(c, q + 1, depth)
    else if Is(c, q, CLOSE_BRACKET) then ItemsAt(NoItems, q + 1)
    else NoItemsAt
  }

  /** parse_object. */
  function ParseObject(c: seq<byte>, at: nat, depth: nat): (r: ValueAt)
    requires Is(c, at, OPEN_BRACE)
    ensures r.ValueAt? ==> at < r.end <= |c|
    decreases |c| - at, 1
  {
    if depth >= NESTING_LIMIT then NoValue
    else
      var p := Skip(c, at + 1);
      if Is(c, p, CLOSE_BRACE) then ValueAt(Object(NoMembers), p + 1)
      else
        var r := ParseMembers(c, p, depth + 1);
        if r.NoMembersAt? then NoValue else ValueAt(Object(r.members), r.end)
  }

  /** A key with the colon behind it, from the white space before it on. */
  function ParseKey(c: seq<byte>, p: nat): (r: StringAt)
    ensures r.StringAt? ==> p < r.end <= |c|
  {
    var key := ParseString(c, Skip(c, p));
    if key.NoString? then NoString
    else
      var q := Skip(c, key.end);
      if Is(c, q, COLON) then StringAt(key.s, q + 1) else NoString
  }

  /** The loop of parse_object, from behind the opening brace or a comma, to behind the closing brace. */
  function ParseMembers(c: seq<byte>, p: nat, depth: nat): (r: MembersAt)
    ensures r.MembersAt? ==> p < r.end <= |c|
    decreases |c| - p, 4
  {
    var m := ParseMember(c, p, depth);
    if m.NoMemberAt? then NoMembersAt
    else
      var r := MoreMembers(c, Skip(c, m.end), depth);
      if r.NoMembersAt? then NoMembersAt else MembersAt(Member(m.key, m.value, r.members), r.end)
  }

  datatype MemberAt = NoMemberAt | MemberAt(key: seq<byte>, value: Value, end: nat)

  /** A key, a colon and a value. */
  function ParseMember(c: seq<byte>, p: nat, depth: nat): (r: MemberAt)
    ensures r.MemberAt? ==> p < r.end <= |c|
    decreases |c| - p, 3
  {
    var key := ParseKey(c, p);
    if key.NoString? then NoMemberAt
    else
      var v := ParseValue(c, Skip(c, key.end), depth);
      if v.NoValue? then NoMemberAt else MemberAt(key.s, v.value, v.end)
  }

  /** The end of a turn of that loop. */
  function MoreMembers(c: seq<byte>, q: nat, depth: nat): (r: MembersAt)
    ensures r.MembersAt? ==> q < r.end <= |c|
    decreases |c| - q, 0
  {
    if Is(c, q, COMMA) then ParseMembers(c, q + 1, depth)
    else if Is(c, q, CLOSE_BRACE) then MembersAt(NoMembers, q + 1)
    else NoMembersAt
  }

  /** skip_utf8_bom. */
  function SkipBom(c: seq<byte>): nat { if |c| > 4 && Starts(c, 0, [0xEF, 0xBB, 0xBF]) then 3 else 0 }

  /** cJSON_ParseWithLengthOpts: the value, and where parsing ended. */
  function ParseDocument(c: seq<byte>, requireTerminator: bool): ValueAt {
    var r := ParseValue(c, Skip(c, SkipBom(c)), 0);
    if r.NoValue? || !requireTerminator then r
    else if Is(c, Skip(c, r.end), NUL) then ValueAt(r.value, Skip(c, r.end))
    else NoValue
  }
}
