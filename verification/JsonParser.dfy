/** The parser of cJSON.c as a class over its parse buffer. Every method is tied to the function of
    the same name in `JsonParse`; where a method reports failure the whole parse is over, and the
    position it leaves is only shown to the user. */
module JsonParser {
  import opened JobTypes
  import opened Bytes
  import opened JsonStrings
  import opened JsonStringProofs
  import opened JsonNumbers
  import opened JsonTree
  import opened JsonParse

  // ---- strings ----

  /** parse_hex4. */
  method ParseHex4(c: seq<byte>, p: nat) returns (h: nat)
    requires p + 4 <= |c|
    ensures h == Hex4(c, p)
  {
    h := 0;
    var i := 0;
    while i < 4
      invariant 0 <= i <= 4
      invariant i >= 1 ==> HexValue(c[p]).Some?
      invariant i >= 2 ==> HexValue(c[p + 1]).Some?
      invariant i >= 3 ==> HexValue(c[p + 2]).Some?
      invariant i == 0 ==> h == 0
      invariant i == 1 ==> h == HexValue(c[p]).value * 16
      invariant i == 2 ==> h == (HexValue(c[p]).value * 16 + HexValue(c[p + 1]).value) * 16
      invariant i == 3 ==>
                  h == ((HexValue(c[p]).value * 16 + HexValue(c[p + 1]).value) * 16 + HexValue(c[p + 2]).value) * 16
      invariant i == 4 ==> h == Hex4(c, p)
    {
      var digit := HexValue(c[p + i]);
      if digit.None? {
        return 0;
      }
      h := h + digit.value;
      if i < 3 {
        h := h * 16;
      }
      i := i + 1;
    }
  }

  /** A code point without its last `n` groups of six bits. */
  function Shifted(cp: nat, n: nat): nat { if n == 0 then cp else Shifted(cp, n - 1) / 0x40 }

  function Mark(length: nat): nat {
    if length == 1 then 0 else if length == 2 then 0xC0 else if length == 3 then 0xE0 else 0xF0
  }

  /** `u` is made of six bits of `cp` a byte, the lowest last, and a mark before the highest. */
  ghost predicate InSixes(u: seq<byte>, cp: nat, mark: nat) {
    && |u| > 0 && u[0] == mark + Shifted(cp, |u| - 1)
    && forall k :: 0 < k < |u| ==> u[k] == 0x80 + Shifted(cp, |u| - 1 - k) % 0x40
  }

  lemma Utf8InSixes(cp: nat)
    requires cp <= 0x10FFFF
    ensures InSixes(Utf8(cp), cp, Mark(|Utf8(cp)|))
  {
    assert Shifted(cp, 1) == cp / 0x40;
    assert Shifted(cp, 2) == cp / 0x40 / 0x40;
    assert Shifted(cp, 3) == cp / 0x40 / 0x40 / 0x40;
  }

  /** The end of utf16_literal_to_utf8: the bytes are written from the last to the first. */
  method WriteSixes(codepoint: nat, length: nat, mark: nat, output: array<byte>, at: nat, ghost u: seq<byte>)
    requires InSixes(u, codepoint, mark) && |u| == length && at + length <= output.Length
    modifies output
    ensures output[at..at + length] == u && output[..at] == old(output[..at])
  {
    ghost var before := output[..at];
    var rest := codepoint;
    var position := length - 1;
    while position > 0
      invariant 0 <= position < length && output[..at] == before
      invariant rest == Shifted(codepoint, length - 1 - position)
      invariant forall k :: position < k < length ==> output[at + k] == u[k]
    {
      assert u[position] == 0x80 + Shifted(codepoint, length - 1 - position) % 0x40;
      output[at + position] := 0x80 + rest % 0x40;
      rest := rest / 0x40;
      position := position - 1;
    }
    output[at] := mark + rest;
  }

  method EncodeUtf8(codepoint: nat, output: array<byte>, at: nat) returns (length: nat)
    requires codepoint <= 0x10FFFF && at + |Utf8(codepoint)| <= output.Length
    modifies output
    ensures length == |Utf8(codepoint)| && output[at..at + length] == Utf8(codepoint)
    ensures output[..at] == old(output[..at])
  {
    var mark := 0;
    if codepoint < 0x80 {
      length := 1;
    } else if codepoint < 0x800 {
      length, mark := 2, 0xC0;
    } else if codepoint < 0x10000 {
      length, mark := 3, 0xE0;
    } else {
      length, mark := 4, 0xF0;
    }
    Utf8InSixes(codepoint);
    WriteSixes(codepoint, length, mark, output, at, Utf8(codepoint));
  }

  /** utf16_literal_to_utf8: the length of the literal in the text, or zero, and of what was written. */
  method Utf16LiteralToUtf8(c: seq<byte>, p: nat, end: nat, output: array<byte>, at: nat)
    returns (taken: nat, written: nat)
    requires p <= end < |c|
    requires Literal(c, p, end).Piece? ==> at + |Literal(c, p, end).bytes| <= output.Length
    modifies output
    ensures taken == (if Literal(c, p, end).Piece? then Literal(c, p, end).length else 0)
    ensures taken > 0 ==> written == |Literal(c, p, end).bytes| && output[at..at + written] == Literal(c, p, end).bytes
    ensures taken > 0 ==> output[..at] == old(output[..at])
  {
    taken, written := 0, 0;
    if end - p < 6 {
      return;
    }
    var first := ParseHex4(c, p + 2);
    if 0xDC00 <= first <= 0xDFFF {
      return;
    }
    var codepoint, length := first, 6;
    if 0xD800 <= first <= 0xDBFF {
      if end - p < 12 || c[p + 6] != BACKSLASH || c[p + 7] != SMALL_U {
        return;
      }
      var second := ParseHex4(c, p + 8);
      if second < 0xDC00 || second > 0xDFFF {
        return;
      }
      codepoint := 0x10000 + (first - 0xD800) * 0x400 + (second - 0xDC00);
      length := 12;
    }
    assert Literal(c, p, end) == Piece(Utf8(codepoint), length);
    written := EncodeUtf8(codepoint, output, at);
    taken := length;
  }

  /** The first pass of parse_string. */
  method FirstPass(c: seq<byte>, at: nat) returns (ok: bool, end: nat, skipped: nat)
    requires at < |c|
    ensures ok <==> FindEnd(c, at + 1).Quote?
    ensures ok ==> FindEnd(c, at + 1) == Quote(end, skipped)
  {
    end, skipped := at + 1, 0;
    while end < |c| && c[end] != QUOTE
      invariant at + 1 <= end <= |c|
      invariant FindEnd(c, at + 1).Quote? <==> FindEnd(c, end).Quote?
      invariant FindEnd(c, end).Quote? ==>
        FindEnd(c, at + 1).end == FindEnd(c, end).end && FindEnd(c, at + 1).escapes == skipped + FindEnd(c, end).escapes
    {
      if c[end] == BACKSLASH {
        if end + 1 >= |c| {
          return false, end, skipped;
        }
        skipped := skipped + 1;
        end := end + 1;
      }
      end := end + 1;
    }
    ok := end < |c|;
  }

  function Prefixed(a: seq<byte>, r: Option<seq<byte>>): Option<seq<byte>> {
    if r.None? then None else Some(a + r.value)
  }

  lemma PrefixedEmpty(r: Option<seq<byte>>)
    ensures Prefixed([], r) == r
  {
    if r.Some? { assert [] + r.value == r.value; }
  }

  lemma PrefixedTwice(a: seq<byte>, b: seq<byte>, r: Option<seq<byte>>)
    ensures Prefixed(a, Prefixed(b, r)) == Prefixed(a + b, r)
  {
    if r.Some? { assert a + (b + r.value) == (a + b) + r.value; }
  }

  lemma {:induction false} EscapeRate(c: seq<byte>, q: nat, a: nat, b: nat)
    requires a <= b <= |c|
    ensures EscapesBefore(c, q, b) - EscapesBefore(c, q, a) <= b - a
    decreases b - a
  {
    if a == b {
    } else {
      EscapeRate(c, q, a, b - 1);
      OneMore(c, q, b - 1);
    }
  }

  /** What has been written at `p` leaves room for the final NUL. */
  lemma RoomLeft(c: seq<byte>, at: nat, end: nat, skipped: nat, p: nat, out: nat)
    requires at < |c| && FindEnd(c, at + 1) == Quote(end, skipped) && at + 1 <= p <= end + 1
    requires out + EscapesBefore(c, at + 1, p) <= p - (at + 1)
    ensures skipped <= end - at && out <= end - at - skipped
  {
    FindEndCounts(c, at + 1);
    NoEscapeAt(c, at + 1, end);
    EscapeRate(c, at + 1, p, end + 1);
  }

  lemma EscapeTurn(c: seq<byte>, p: nat, end: nat)
    requires p < end < |c| && c[p] == BACKSLASH
    ensures var r := Unescape(c, p, end);
            Decode(c, p, end) == if r.BadPiece? then None else Prefixed(r.bytes, Decode(c, p + r.length, end))
  {
  }

  lemma PlainTurn(c: seq<byte>, p: nat, end: nat)
    requires p < end < |c| && c[p] != BACKSLASH
    ensures Decode(c, p, end) == Prefixed([c[p]], Decode(c, p + 1, end))
  {
  }

  /** One escape of the second pass: how far it moves in the text, or zero, and how much it wrote. */
  method WriteEscape(c: seq<byte>, p: nat, end: nat, output: array<byte>, out: nat) returns (taken: nat, written: nat)
    requires p < end < |c|
    requires Unescape(c, p, end).Piece? ==> out + |Unescape(c, p, end).bytes| <= output.Length
    modifies output
    ensures taken == (if Unescape(c, p, end).Piece? then Unescape(c, p, end).length else 0)
    ensures taken > 0 ==>
              written == |Unescape(c, p, end).bytes| && output[out..out + written] == Unescape(c, p, end).bytes
    ensures taken > 0 ==> output[..out] == old(output[..out])
  {
    if c[p + 1] == SMALL_U {
      taken, written := Utf16LiteralToUtf8(c, p, end, output, out);
    } else {
      var plain := ShortUnescape(c[p + 1]);
      if plain.None? {
        return 0, 0;
      }
      output[out] := plain.value;
      taken, written := 2, 1;
    }
  }

  /** The second pass of the string at `at` has come to `p` and has written `done`. */
  ghost predicate Written(c: seq<byte>, at: nat, end: nat, p: nat, done: seq<byte>)
    requires at < |c| && end < |c|
  {
    && at + 1 <= p <= end + 1
    && |done| + EscapesBefore(c, at + 1, p) <= p - (at + 1)
    && Decode(c, at + 1, end) == Prefixed(done, Decode(c, p, end))
  }

  lemma WrittenPlain(c: seq<byte>, at: nat, end: nat, p: nat, done: seq<byte>)
    requires at < |c| && end < |c| && Written(c, at, end, p, done) && p < end && c[p] != BACKSLASH
    ensures Written(c, at, end, p + 1, done + [c[p]])
  {
    PlainTurn(c, p, end);
    NoEscapeAt(c, at + 1, p);
    PrefixedTwice(done, [c[p]], Decode(c, p + 1, end));
  }

  lemma WrittenEscape(c: seq<byte>, at: nat, end: nat, p: nat, done: seq<byte>)
    requires at < |c| && end < |c| && Written(c, at, end, p, done) && p < end && c[p] == BACKSLASH
    ensures var r := Unescape(c, p, end);
            && (r.BadPiece? ==> Decode(c, at + 1, end).None?)
            && (r.Piece? ==> Written(c, at, end, p + r.length, done + r.bytes))
  {
    EscapeTurn(c, p, end);
    var r := Unescape(c, p, end);
    if r.Piece? {
      UnescapeFits(c, at + 1, p, end);
      PrefixedTwice(done, r.bytes, Decode(c, p + r.length, end));
    }
  }

  /** One turn of the second pass. */
  method SecondPassTurn(c: seq<byte>, at: nat, end: nat, skipped: nat, output: array<byte>, p: nat, out: nat)
    returns (ok: bool, p': nat, out': nat)
    requires at < |c| && FindEnd(c, at + 1) == Quote(end, skipped)
    requires skipped <= end - at && output.Length == (end - at) - skipped + 1
    requires p < end && out < output.Length && Written(c, at, end, p, output[..out])
    modifies output
    ensures !ok ==> Decode(c, at + 1, end).None?
    ensures ok ==> p < p' && out' < output.Length && Written(c, at, end, p', output[..out'])
  {
    ghost var done := output[..out];
    if c[p] != BACKSLASH {
      WrittenPlain(c, at, end, p, done);
      RoomLeft(c, at, end, skipped, p + 1, out + 1);
      output[out] := c[p];
      assert output[..out + 1] == done + [c[p]];
      ok, p', out' := true, p + 1, out + 1;
    } else {
      WrittenEscape(c, at, end, p, done);
      ghost var r := Unescape(c, p, end);
      if r.Piece? {
        RoomLeft(c, at, end, skipped, p + r.length, out + |r.bytes|);
      }
      var taken, written := WriteEscape(c, p, end, output, out);
      ok, p', out' := taken > 0, p + taken, out + written;
      if ok {
        assert output[..out + written] == done + r.bytes;
      }
    }
  }

  /** The second pass of parse_string never writes outside what was allocated after the first. */
  method SecondPass(c: seq<byte>, at: nat, end: nat, skipped: nat, output: array<byte>) returns (ok: bool, out: nat)
    requires at < |c| && FindEnd(c, at + 1) == Quote(end, skipped)
    requires skipped <= end - at && output.Length == (end - at) - skipped + 1
    modifies output
    ensures ok <==> Decode(c, at + 1, end).Some?
    ensures ok ==> out < output.Length && output[..out] == Decode(c, at + 1, end).value
  {
    var p := at + 1;
    out := 0;
    ok := true;
    assert output[..0] == [];
    PrefixedEmpty(Decode(c, p, end));
    while p < end
      invariant out < output.Length && Written(c, at, end, p, output[..out])
      decreases end - p
    {
      ok, p, out := SecondPassTurn(c, at, end, skipped, output, p, out);
      if !ok {
        return;
      }
    }
    assert output[..out] + [] == output[..out];
  }

  /** parse_string: the string it stores, and the position it leaves. */
  method ReadString(c: seq<byte>, at: nat) returns (ok: bool, s: seq<byte>, after: nat)
    requires at < |c|
    ensures ok <==> ParseString(c, at).StringAt?
    ensures ok ==> ParseString(c, at) == StringAt(s, after)
  {
    s, after := [], at;
    if c[at] != QUOTE {
      return false, s, after;
    }
    var end, skipped;
    ok, end, skipped := FirstPass(c, at);
    if !ok {
      return;
    }
    FindEndCounts(c, at + 1);
    var output := new byte[(end - at) - skipped + 1];
    var out;
    ok, out := SecondPass(c, at, end, skipped, output);
    if !ok {
      return;
    }
    output[out] := NUL;
    s := CString(output[..out]);
    after := end + 1;
  }

  // ---- the loops of parse_array and parse_object ----

  /** The items parsed so far, and what the rest of the input gives. */
  function ItemsBehind(items: Items, r: ItemsAt): ItemsAt {
    if r.NoItemsAt? then NoItemsAt else ItemsAt(Join(items, r.items), r.end)
  }

  function MembersBehind(ms: Members, r: MembersAt): MembersAt {
    if r.NoMembersAt? then NoMembersAt else MembersAt(JoinMembers(ms, r.members), r.end)
  }

  /** One turn of the loop of parse_array. */
  lemma ItemsTurn(c: seq<byte>, p: nat, depth: nat, v: Value, e: nat)
    ensures ParseValue(c, Skip(c, p), depth) == ValueAt(v, e) ==>
      ParseItems(c, p, depth) == ItemsBehind(Item(v, NoItems), MoreItems(c, Skip(c, e), depth))
    ensures ParseValue(c, Skip(c, p), depth).NoValue? ==> ParseItems(c, p, depth) == NoItemsAt
  {
    var r := MoreItems(c, Skip(c, e), depth);
    if r.ItemsAt? { assert Join(NoItems, r.items) == r.items; }
  }

  /** One turn of the loop of parse_object. */
  lemma MembersTurn(c: seq<byte>, p: nat, depth: nat, key: seq<byte>, at: nat, v: Value, e: nat)
    ensures ParseKey(c, p) == StringAt(key, at) && ParseValue(c, Skip(c, at), depth) == ValueAt(v, e) ==>
      ParseMembers(c, p, depth) == MembersBehind(Member(key, v, NoMembers), MoreMembers(c, Skip(c, e), depth))
    ensures ParseKey(c, p) == StringAt(key, at) && ParseValue(c, Skip(c, at), depth).NoValue? ==>
      ParseMembers(c, p, depth) == NoMembersAt
    ensures ParseKey(c, p) == NoString ==> ParseMembers(c, p, depth) == NoMembersAt
  {
    var r := MoreMembers(c, Skip(c, e), depth);
    if r.MembersAt? { assert JoinMembers(NoMembers, r.members) == r.members; }
  }

  lemma ItemsBehindTwice(done: Items, v: Value, r: ItemsAt)
    ensures ItemsBehind(done, ItemsBehind(Item(v, NoItems), r)) == ItemsBehind(Join(done, Item(v, NoItems)), r)
  {
    if r.ItemsAt? { JoinTwice(done, v, r.items); }
  }

  lemma ItemsStop(c: seq<byte>, q: nat, depth: nat, done: Items)
    requires !Is(c, q, COMMA)
    ensures ItemsBehind(done, MoreItems(c, q, depth)) ==
              if Is(c, q, CLOSE_BRACKET) then ItemsAt(done, q + 1) else NoItemsAt
  {
    JoinNone(done);
  }

  lemma MembersBehindTwice(done: Members, key: seq<byte>, v: Value, r: MembersAt)
    ensures MembersBehind(done, MembersBehind(Member(key, v, NoMembers), r)) ==
              MembersBehind(JoinMembers(done, Member(key, v, NoMembers)), r)
  {
    if r.MembersAt? { JoinMembersTwice(done, key, v, r.members); }
  }

  lemma MembersStop(c: seq<byte>, q: nat, depth: nat, done: Members)
    requires !Is(c, q, COMMA)
    ensures MembersBehind(done, MoreMembers(c, q, depth)) ==
              if Is(c, q, CLOSE_BRACE) then MembersAt(done, q + 1) else NoMembersAt
  {
    JoinMembersNone(done);
  }

  lemma BlankUnique(c: seq<byte>, p: nat, q: nat)
    requires p <= q <= |c| && (forall i :: p <= i < q ==> c[i] <= 32) && (q < |c| ==> c[q] > 32)
    ensures Blank(c, p) == q
    decreases q - p
  {
    if p == q {
    } else {
      BlankUnique(c, p + 1, q);
    }
  }

  lemma ValueOfContainer(c: seq<byte>, at: nat, depth: nat)
    ensures Is(c, at, OPEN_BRACKET) ==> ParseValue(c, at, depth) == ParseArray(c, at, depth)
    ensures Is(c, at, OPEN_BRACE) ==> ParseValue(c, at, depth) == ParseObject(c, at, depth)
  {
  }

  /** The loop of parse_number: the characters it copies. */
  method CopyNumber(c: seq<byte>, at: nat) returns (i: nat, copy: array<byte>)
    requires at < |c| && c[|c| - 1] == NUL
    ensures i <= 63 && i < copy.Length && at + i < |c| && copy[..i] == c[at..at + i]
    ensures forall k :: at <= k < at + i ==> IsNumberByte(c[k])
    ensures i == 63 || !IsNumberByte(c[at + i])
  {
    copy := new byte[64];
    i := 0;
    while i < 63 && at + i < |c| && IsNumberByte(c[at + i])
      invariant 0 <= i <= 63 && at + i < |c|
      invariant forall k :: at <= k < at + i ==> IsNumberByte(c[k])
      invariant copy[..i] == c[at..at + i]
    {
      copy[i] := c[at + i];
      i := i + 1;
    }
    copy[i] := NUL;
  }

  lemma {:induction false} NumberCopied(c: seq<byte>, at: nat, k: nat, i: nat)
    requires k <= i <= 63 && at + i < |c| && forall m :: at <= m < at + i ==> IsNumberByte(c[m])
    ensures NumberFrom(c, at, k) == NumberFrom(c, at, i)
    decreases i - k
  {
    if k == i {
    } else {
      NumberCopied(c, at, k + 1, i);
    }
  }

  lemma NumberStops(c: seq<byte>, at: nat, i: nat)
    requires i <= 63 && at + i < |c| && (i == 63 || !IsNumberByte(c[at + i]))
    ensures var r := Strtod(c[at..at + i]);
            NumberFrom(c, at, i) == if r.length == 0 then NoNumber else NumberAt(r.value, at + r.length)
  {
  }

  /** What the copied bytes spell is the number that stands there. */
  lemma NumberSpelled(c: seq<byte>, at: nat, i: nat)
    requires i <= 63 && at + i < |c| && (i == 63 || !IsNumberByte(c[at + i]))
    requires forall m :: at <= m < at + i ==> IsNumberByte(c[m])
    ensures var r := Strtod(c[at..at + i]);
            ParseNumber(c, at) == if r.length == 0 then NoNumber else NumberAt(r.value, at + r.length)
  {
    NumberCopied(c, at, 0, i);
    NumberStops(c, at, i);
  }

  class ParseBuffer {
    const content: seq<byte>
    var offset: nat
    var depth: nat

    /** The input ends with a NUL, and the parser has not passed it. */
    ghost predicate Valid()
      reads this
    {
      |content| > 0 && content[|content| - 1] == NUL && offset < |content|
    }

    constructor (content: seq<byte>)
      requires |content| > 0 && content[|content| - 1] == NUL
      ensures Valid() && this.content == content && offset == 0 && depth == 0
    {
      this.content := content;
      offset, depth := 0, 0;
    }

    /** buffer_skip_whitespace. */
    method SkipWhitespace()
      requires Valid()
      modifies this`offset
      ensures Valid() && offset == Skip(content, old(offset))
    {
      while offset < |content| && content[offset] <= 32
        invariant old(offset) <= offset <= |content|
        invariant forall i :: old(offset) <= i < offset ==> content[i] <= 32
      {
        offset := offset + 1;
      }
      BlankUnique(content, old(offset), offset);
      if offset == |content| {
        offset := offset - 1;
      }
    }

    /** parse_number. */
    method ReadNumber() returns (ok: bool, value: real)
      requires Valid()
      modifies this`offset
      ensures ok <==> ParseNumber(content, old(offset)).NumberAt?
      ensures ok ==> Valid() && ParseNumber(content, old(offset)) == NumberAt(value, offset)
    {
      var i, copy := CopyNumber(content, offset);
      NumberSpelled(content, offset, i);
      var r := Strtod(copy[..i]);
      ok, value := r.length > 0, r.value;
      if ok {
        offset := offset + r.length;
      }
    }

    /** The text `t` stands at the cursor. */
    method Sees(t: seq<byte>) returns (seen: bool)
      requires Valid() && t != [] && NulFree(t)
      ensures seen <==> Starts(content, offset, t)
      ensures seen ==> offset + |t| < |content|
    {
      seen := Starts(content, offset, t);
      if seen {
        StartsElements(content, offset, t, 0);
        assert content[offset + (|t| - 1)] == t[|t| - 1];
      }
    }

    /** The cases of parse_value for scalars. */
    method ReadScalar() returns (ok: bool, v: Value)
      requires Valid() && content[offset] != OPEN_BRACKET && content[offset] != OPEN_BRACE
      modifies this`offset
      ensures ok <==> ParseValue(content, old(offset), depth).ValueAt?
      ensures ok ==> Valid() && ParseValue(content, old(offset), depth) == ValueAt(v, offset)
    {
      ok, v := true, Null;
      var isNull := Sees(NULL_TEXT);
      var isFalse := Sees(FALSE_TEXT);
      var isTrue := Sees(TRUE_TEXT);
      if isNull {
        offset := offset + 4;
      } else if isFalse {
        v := False;
        offset := offset + 5;
      } else if isTrue {
        v := True;
        offset := offset + 4;
      } else if content[offset] == QUOTE {
        var s, after;
        ok, s, after := ReadString(content, offset);
        if ok {
          v := String(s);
          offset := after;
        }
      } else if content[offset] == MINUS || IsDigit(content[offset]) {
        var x;
        ok, x := ReadNumber();
        v := Number(x);
      } else {
        ok := false;
      }
    }

    /** parse_value. On success the cursor has moved on, within the input, and the depth is what it was. */
    method ReadValue() returns (ok: bool, v: Value)
      requires Valid()
      modifies this`offset, this`depth
      ensures ok <==> ParseValue(content, old(offset), old(depth)).ValueAt?
      ensures ok ==> Valid() && offset > old(offset) && depth == old(depth)
      ensures ok ==> ParseValue(content, old(offset), old(depth)) == ValueAt(v, offset)
      decreases |content| - offset, 2
    {
      if content[offset] == OPEN_BRACKET {
        ValueOfContainer(content, offset, depth);
        ok, v := ReadArray();
      } else if content[offset] == OPEN_BRACE {
        ValueOfContainer(content, offset, depth);
        ok, v := ReadObject();
      } else {
        ok, v := ReadScalar();
      }
    }

    /** The step over an opening bracket or brace. */
    method Enter()
      requires Valid() && content[offset] != NUL
      modifies this`offset, this`depth
      ensures Valid() && depth == old(depth) + 1 && offset == Skip(content, old(offset) + 1)
    {
      depth := depth + 1;
      offset := offset + 1;
      SkipWhitespace();
    }

    /** parse_array. */
    method ReadArray() returns (ok: bool, v: Value)
      requires Valid() && content[offset] == OPEN_BRACKET
      modifies this`offset, this`depth
      ensures ok <==> ParseArray(content, old(offset), old(depth)).ValueAt?
      ensures ok ==> Valid() && offset > old(offset) && depth == old(depth)
      ensures ok ==> ParseArray(content, old(offset), old(depth)) == ValueAt(v, offset)
      decreases |content| - offset, 1
    {
      v := Null;
      if depth >= NESTING_LIMIT {
        return false, v;
      }
      Enter();
      var items := NoItems;
      if content[offset] != CLOSE_BRACKET {
        // back to the character in front of the first element
        offset := offset - 1;
        ok, items := ReadItems();
        if !ok {
          return;
        }
      }
      depth := depth - 1;
      offset := offset + 1;
      ok, v := true, Array(items);
    }

    /** The loop of parse_array. */
    method ReadItems() returns (ok: bool, items: Items)
      requires Valid() && offset + 1 < |content|
      modifies this`offset, this`depth
      ensures ok <==> ParseItems(content, old(offset) + 1, old(depth)).ItemsAt?
      ensures ok ==> Valid() && offset > old(offset) && depth == old(depth) && content[offset] == CLOSE_BRACKET
      ensures ok ==> ParseItems(content, old(offset) + 1, old(depth)) == ItemsAt(items, offset + 1)
      decreases |content| - offset, 0
    {
      ghost var whole := ParseItems(content, offset + 1, depth);
      items := NoItems;
      ok := true;
      while ok
        invariant Valid() && offset >= old(offset) && depth == old(depth)
        invariant ok ==> offset + 1 < |content| && ItemsBehind(items, ParseItems(content, offset + 1, depth)) == whole
        invariant !ok ==>
          && offset > old(offset) && !Is(content, offset, COMMA)
          && ItemsBehind(items, MoreItems(content, offset, depth)) == whole
        decreases |content| - offset, ok
      {
        var v;
        ok, v := ReadItem();
        if !ok {
          return;
        }
        ItemsBehindTwice(items, v, MoreItems(content, offset, depth));
        items := Join(items, Item(v, NoItems));
        ok := content[offset] == COMMA;
      }
      ItemsStop(content, offset, depth, items);
      ok := content[offset] == CLOSE_BRACKET;
    }

    /** The turn that steps over the comma, reads the next value and skips the white space behind it. */
    method ReadItem() returns (ok: bool, v: Value)
      requires Valid() && offset + 1 < |content|
      modifies this`offset, this`depth
      ensures ok ==> Valid() && offset > old(offset) + 1 && depth == old(depth)
      ensures ok ==>
        ParseItems(content, old(offset) + 1, old(depth)) ==
        ItemsBehind(Item(v, NoItems), MoreItems(content, offset, depth))
      ensures !ok ==> ParseItems(content, old(offset) + 1, old(depth)) == NoItemsAt
      decreases |content| - offset - 1, 3
    {
      offset := offset + 1;
      SkipWhitespace();
      ok, v := ReadValue();
      ItemsTurn(content, old(offset) + 1, old(depth), v, offset);
      if ok {
        SkipWhitespace();
      }
    }

    /** parse_object. */
    method ReadObject() returns (ok: bool, v: Value)
      requires Valid() && content[offset] == OPEN_BRACE
      modifies this`offset, this`depth
      ensures ok <==> ParseObject(content, old(offset), old(depth)).ValueAt?
      ensures ok ==> Valid() && offset > old(offset) && depth == old(depth)
      ensures ok ==> ParseObject(content, old(offset), old(depth)) == ValueAt(v, offset)
      decreases |content| - offset, 1
    {
      v := Null;
      if depth >= NESTING_LIMIT {
        return false, v;
      }
      Enter();
      var members := NoMembers;
      if content[offset] != CLOSE_BRACE {
        // back to the character in front of the first member
        offset := offset - 1;
        ok, members := ReadMembers();
        if !ok {
          return;
        }
      }
      depth := depth - 1;
      offset := offset + 1;
      ok, v := true, Object(members);
    }

    /** The loop of parse_object. */
    method ReadMembers() returns (ok: bool, members: Members)
      requires Valid() && offset + 1 < |content|
      modifies this`offset, this`depth
      ensures ok <==> ParseMembers(content, old(offset) + 1, old(depth)).MembersAt?
      ensures ok ==> Valid() && offset > old(offset) && depth == old(depth) && content[offset] == CLOSE_BRACE
      ensures ok ==> ParseMembers(content, old(offset) + 1, old(depth)) == MembersAt(members, offset + 1)
      decreases |content| - offset, 0
    {
      ghost var whole := ParseMembers(content, offset + 1, depth);
      members := NoMembers;
      ok := true;
      while ok
        invariant Valid() && offset >= old(offset) && depth == old(depth)
        invariant ok ==>
                    offset + 1 < |content| && MembersBehind(members, ParseMembers(content, offset + 1, depth)) == whole
        invariant !ok ==>
          && offset > old(offset) && !Is(content, offset, COMMA)
          && MembersBehind(members, MoreMembers(content, offset, depth)) == whole
        decreases |content| - offset, ok
      {
        var key, v;
        ok, key, v := ReadMember();
        if !ok {
          return;
        }
        MembersBehindTwice(members, key, v, MoreMembers(content, offset, depth));
        members := JoinMembers(members, Member(key, v, NoMembers));
        ok := content[offset] == COMMA;
      }
      MembersStop(content, offset, depth, members);
      ok := content[offset] == CLOSE_BRACE;
    }

    /** The name of a member and the colon behind it. */
    method ReadKey() returns (ok: bool, key: seq<byte>)
      requires Valid() && offset + 1 < |content|
      modifies this`offset
      ensures ok <==> ParseKey(content, old(offset) + 1).StringAt?
      ensures ok ==> Valid() && offset > old(offset) && ParseKey(content, old(offset) + 1) == StringAt(key, offset)
    {
      offset := offset + 1;
      SkipWhitespace();
      var after;
      ok, key, after := ReadString(content, offset);
      if !ok {
        return;
      }
      offset := after;
      SkipWhitespace();
      ok := content[offset] == COLON;
      if ok {
        offset := offset + 1;
      }
    }

    /** The turn that reads a name, a colon and a value and skips the white space behind it. */
    method ReadMember() returns (ok: bool, key: seq<byte>, v: Value)
      requires Valid() && offset + 1 < |content|
      modifies this`offset, this`depth
      ensures ok ==> Valid() && offset > old(offset) + 1 && depth == old(depth)
      ensures ok ==>
        ParseMembers(content, old(offset) + 1, old(depth)) ==
          MembersBehind(Member(key, v, NoMembers), MoreMembers(content, offset, depth))
      ensures !ok ==> ParseMembers(content, old(offset) + 1, old(depth)) == NoMembersAt
      decreases |content| - offset - 1, 3
    {
      v := Null;
      ok, key := ReadKey();
      ghost var at := offset;
      if ok {
        SkipWhitespace();
        ok, v := ReadValue();
      }
      MembersTurn(content, old(offset) + 1, old(depth), key, at, v, offset);
      if ok {
        SkipWhitespace();
      }
    }
  }

  /** cJSON_ParseWithLengthOpts on an input that ends with a NUL. */
  method ParseText(content: seq<byte>, requireTerminator: bool) returns (ok: bool, v: Value, end: nat)
    requires |content| > 0 && content[|content| - 1] == NUL
    ensures ok <==> ParseDocument(content, requireTerminator).ValueAt?
    ensures ok ==> ParseDocument(content, requireTerminator) == ValueAt(v, end)
  {
    var buffer := new ParseBuffer(content);
    if |content| > 4 && Starts(content, 0, [0xEF, 0xBB, 0xBF]) {
      buffer.offset := 3;
    }
    end := 0;
    buffer.SkipWhitespace();
    ok, v := buffer.ReadValue();
    if !ok {
      return;
    }
    if requireTerminator {
      buffer.SkipWhitespace();
      ok := content[buffer.offset] == NUL;
    }
    end := buffer.offset;
  }
}
