/** The printer of cJSON.c as a class over its print buffer: what is printed is the text of the tree,
    and no write leaves the space that was asked for before it. */
module JsonPrinter {
  import opened JobTypes
  import opened Bytes
  import opened JsonStrings
  import opened JsonStringProofs
  import opened JsonNumbers
  import opened JsonTree

  /** Stores `t` from position `at` on. */
  method Put(buffer: array<byte>, at: nat, t: seq<byte>)
    requires at + |t| <= buffer.Length
    modifies buffer
    ensures buffer[..at + |t|] == old(buffer[..at]) + t
  {
    for k := 0 to |t|
      invariant buffer[..at + k] == old(buffer[..at]) + t[..k]
    {
      buffer[at + k] := t[k];
    }
  }

  /** How many characters escaping adds to one. */
  function Extra(b: byte): (n: nat)
    ensures n + 1 == |EscapeByte(b)|
  {
    if ShortEscape(b).Some? then 1 else if b < 32 then 5 else 0
  }

  /** The first loop of print_string_ptr: the number of additional characters. */
  method CountEscapes(s: seq<byte>) returns (extra: nat)
    ensures |s| + extra == |Escape(s)|
    ensures extra == 0 ==> Escape(s) == s
  {
    extra := 0;
    assert s[..0] == [];
    for i := 0 to |s|
      invariant i + extra == |Escape(s[..i])|
      invariant extra == 0 ==> Escape(s[..i]) == s[..i]
    {
      EscapeNext(s, i);
      extra := extra + Extra(s[i]);
    }
    assert s[..|s|] == s;
  }

  lemma EscapeNext(s: seq<byte>, i: nat)
    requires i < |s|
    ensures Escape(s[..i + 1]) == Escape(s[..i]) + EscapeByte(s[i])
    ensures Extra(s[i]) == 0 ==> EscapeByte(s[i]) == [s[i]]
  {
    assert s[..i + 1] == s[..i] + [s[i]];
    EscapeConcat(s[..i], [s[i]]);
    assert [s[i]][1..] == [];
  }

  /** One turn of the copying loop of print_string_ptr. A control character is printed with a NUL behind
      it, which the next character overwrites. */
  method PutEscaped(buffer: array<byte>, at: nat, b: byte) returns (end: nat)
    requires at + |EscapeByte(b)| < buffer.Length
    modifies buffer
    ensures end == at + |EscapeByte(b)| && buffer[..end] == old(buffer[..at]) + EscapeByte(b)
  {
    if b > 31 && b != QUOTE && b != BACKSLASH {
      Put(buffer, at, [b]);
      end := at + 1;
    } else {
      var letter := ShortEscape(b);
      if letter.Some? {
        Put(buffer, at, [BACKSLASH, letter.value]);
        end := at + 2;
      } else {
        var hex := [BACKSLASH, SMALL_U, 48, 48, HexDigit(b / 16), HexDigit(b % 16)];
        Put(buffer, at, hex + [NUL]);
        end := at + 6;
        assert buffer[..end] == buffer[..end + 1][..end];
      }
    }
  }

  /** The copying loop of print_string_ptr. */
  method PutAllEscaped(buffer: array<byte>, start: nat, s: seq<byte>) returns (out: nat)
    requires start + |Escape(s)| < buffer.Length
    modifies buffer
    ensures out == start + |Escape(s)| && buffer[..out] == old(buffer[..start]) + Escape(s)
  {
    ghost var before := buffer[..start];
    ghost var done: seq<byte> := [];
    out := start;
    assert s[..0] == [];
    for i := 0 to |s|
      invariant done == Escape(s[..i]) && out == start + |done| && out <= buffer.Length
      invariant buffer[..out] == before + done
    {
      ghost var next := EscapeByte(s[i]);
      EscapeSplit(s, i);
      out := PutEscaped(buffer, out, s[i]);
      assert before + done + next == before + (done + next);
      done := done + next;
    }
    assert s[..|s|] == s;
  }

  /** What print_string_ptr stores once it has its room: the string in quotes, and a NUL. */
  method PutQuoted(buffer: array<byte>, at: nat, s: seq<byte>, extra: nat)
    requires |s| + extra == |Escape(s)| && (extra == 0 ==> Escape(s) == s)
    requires at + |s| + extra + 3 <= buffer.Length
    modifies buffer
    ensures buffer[..at + |Quoted(s)| + 1] == old(buffer[..at]) + (Quoted(s) + [NUL])
  {
    if extra == 0 {
      Put(buffer, at, [QUOTE] + s + [QUOTE, NUL]);
      QuotedParts(s, s);
    } else {
      PutEscapedString(buffer, at, s);
    }
  }

  method PutEscapedString(buffer: array<byte>, at: nat, s: seq<byte>)
    requires at + |Escape(s)| + 3 <= buffer.Length
    modifies buffer
    ensures buffer[..at + |Quoted(s)| + 1] == old(buffer[..at]) + (Quoted(s) + [NUL])
  {
    ghost var before, e := buffer[..at], Escape(s);
    buffer[at] := QUOTE;
    assert buffer[..at + 1] == before + [QUOTE];
    var out := PutAllEscaped(buffer, at + 1, s);
    Put(buffer, out, [QUOTE, NUL]);
    QuotedParts(s, e);
    assert before + [QUOTE] + e + [QUOTE, NUL] == before + ([QUOTE] + e + [QUOTE, NUL]);
  }

  lemma QuotedParts(s: seq<byte>, e: seq<byte>)
    requires e == Escape(s)
    ensures [QUOTE] + e + [QUOTE, NUL] == Quoted(s) + [NUL]
  {
  }

  lemma EscapeSplit(s: seq<byte>, i: nat)
    requires i < |s|
    ensures Escape(s[..i + 1]) == Escape(s[..i]) + EscapeByte(s[i])
    ensures |Escape(s[..i])| + |EscapeByte(s[i])| <= |Escape(s)|
  {
    EscapeNext(s, i);
    assert s == s[..i + 1] + s[i + 1..];
    EscapeConcat(s[..i + 1], s[i + 1..]);
  }

  lemma QuotedNulFree(s: seq<byte>)
    requires NulFree(s)
    ensures NulFree(Quoted(s))
  {
    EscapeNulFree(s);
  }

  lemma Joined(a: seq<byte>, b: seq<byte>, c: seq<byte>)
    ensures a + b + c == a + (b + c)
  {
  }

  lemma JoinedFour(a: seq<byte>, b: seq<byte>, c: seq<byte>, d: seq<byte>)
    ensures a + b + c + d == a + (b + c + d)
    ensures a + b + c + d == a + (b + (c + d))
  {
  }

  lemma JoinedNone(a: seq<byte>)
    ensures a + [] == a
  {
  }

  lemma ArrayInParts(items: Items, d: nat, f: bool, t: seq<byte>)
    requires t == ItemsText(items, d + 1, f)
    ensures ArrayText(items, d, f) == [OPEN_BRACKET] + t + [CLOSE_BRACKET]
  {
  }

  lemma ObjectInParts(members: Members, d: nat, f: bool, t: seq<byte>)
    requires t == MembersText(members, d + 1, f)
    ensures ObjectText(members, d, f) == Opening(f) + t + ((if f then Tabs(d) else []) + [CLOSE_BRACE])
  {
  }

  class PrintBuffer {
    var buffer: array<byte>
    var offset: nat
    var depth: nat
    const noalloc: bool
    const format: bool

    ghost predicate Valid()
      reads this
    {
      buffer.Length <= INT_MAX && (offset < buffer.Length || (offset == 0 && buffer.Length == 0))
    }

    /** The longest the buffer can become. */
    ghost function Cap(): nat
      reads this
    {
      if noalloc then buffer.Length else INT_MAX
    }

    ghost function Done(): seq<byte>
      reads this, buffer
      requires Valid()
    {
      buffer[..offset]
    }

    constructor (buffer: array<byte>, noalloc: bool, format: bool)
      requires buffer.Length <= INT_MAX
      ensures Valid() && this.buffer == buffer && offset == 0 && depth == 0
      ensures this.noalloc == noalloc && this.format == format
    {
      this.buffer, offset, depth := buffer, 0, 0;
      this.noalloc, this.format := noalloc, format;
    }

    /** ensure: makes room for `needed` bytes and one more, and says whether there is. */
    method Ensure(needed: nat) returns (ok: bool)
      requires Valid()
      modifies this`buffer
      ensures Valid() && Cap() == old(Cap()) && (buffer == old(buffer) || (!noalloc && fresh(buffer)))
      ensures ok <==> offset + needed + 1 <= Cap()
      ensures ok ==> offset + needed + 1 <= buffer.Length
      ensures Done() == old(Done())
    {
      if needed > INT_MAX {
        return false;
      }
      var total := needed + offset + 1;
      if total <= buffer.Length {
        return true;
      }
      if noalloc {
        return false;
      }
      var newSize := total * 2;
      if total > INT_MAX / 2 {
        if total > INT_MAX {
          return false;
        }
        newSize := INT_MAX;
      }
      var newBuffer := new byte[newSize];
      var size := buffer.Length;
      for k := 0 to size
        invariant buffer == old(buffer) && offset == old(offset) && fresh(newBuffer)
        invariant newBuffer[..k] == buffer[..k] == old(buffer[..k])
      {
        newBuffer[k] := buffer[k];
      }
      assert Done() == newBuffer[..size][..offset];
      assert buffer[..size][..offset] == buffer[..offset];
      buffer := newBuffer;
      ok := true;
    }

    /** Asks for `needed` bytes and stores `t`, which is no longer than that, at the cursor. */
    method Emit(t: seq<byte>, needed: nat) returns (ok: bool)
      requires Valid() && |t| <= needed
      modifies this`buffer, buffer
      ensures Valid() && Cap() == old(Cap()) && (buffer == old(buffer) || (!noalloc && fresh(buffer)))
      ensures ok <==> offset + needed + 1 <= Cap()
      ensures ok ==> offset + needed + 1 <= buffer.Length && buffer[..offset + |t|] == old(Done()) + t
    {
      ok := Ensure(needed);
      if ok {
        ghost var before := Done();
        Put(buffer, offset, t);
      }
    }

    /** The same, after which the cursor stands behind what was stored. */
    method Append(t: seq<byte>, needed: nat) returns (ok: bool)
      requires Valid() && |t| <= needed
      modifies this`buffer, this`offset, buffer
      ensures Valid() && Cap() == old(Cap()) && (buffer == old(buffer) || (!noalloc && fresh(buffer)))
      ensures ok <==> old(offset) + needed + 1 <= Cap()
      ensures ok ==> Done() == old(Done()) + t
    {
      ok := Emit(t, needed);
      if ok {
        offset := offset + |t|;
      }
    }

    /** `t` stands in the buffer, ended by a NUL; the cursor stands somewhere in it, and no NUL lies between. */
    ghost predicate Holds(t: seq<byte>)
      reads this, buffer
    {
      && offset <= |t| < buffer.Length && buffer[..|t|] == t && buffer[|t|] == NUL
      && forall i :: offset <= i < |t| ==> t[i] != NUL
    }

    /** update_offset: the cursor moves to the next NUL. */
    method UpdateOffset(ghost t: seq<byte>)
      requires Valid() && Holds(t)
      modifies this`offset
      ensures Valid() && offset == |t| && Done() == t
    {
      var length := 0;
      assert forall i :: 0 <= i < |t| ==> buffer[i] == buffer[..|t|][i];
      while buffer[offset + length] != NUL
        invariant offset + length <= |t|
        decreases |t| - length
      {
        length := length + 1;
      }
      offset := offset + length;
    }

    /** A text without NUL is stored with one behind it, and the cursor stays. */
    method EmitText(t: seq<byte>) returns (ok: bool)
      requires Valid() && NulFree(t)
      modifies this`buffer, buffer
      ensures Valid() && Cap() == old(Cap()) && (buffer == old(buffer) || (!noalloc && fresh(buffer)))
      ensures ok <==> offset + |t| + 2 <= Cap()
      ensures ok ==> Holds(old(Done()) + t)
    {
      ghost var before := Done();
      ok := Emit(t + [NUL], |t| + 1);
      if ok {
        HoldsText(before, t);
      }
    }

    /** print_string_ptr. */
    method PrintString(s: seq<byte>) returns (ok: bool)
      requires Valid() && NulFree(s)
      modifies this`buffer, buffer
      ensures Valid() && Cap() == old(Cap()) && (buffer == old(buffer) || (!noalloc && fresh(buffer)))
      ensures ok <==> offset + |Quoted(s)| + 2 <= Cap()
      ensures ok ==> Holds(old(Done()) + Quoted(s))
    {
      var extra := CountEscapes(s);
      ok := Ensure(|s| + extra + 3);
      if !ok {
        return;
      }
      ghost var before := Done();
      PutQuoted(buffer, offset, s, extra);
      QuotedNulFree(s);
      HoldsText(before, Quoted(s));
    }

    lemma HoldsText(before: seq<byte>, t: seq<byte>)
      requires Valid() && offset == |before| && offset + |t| + 1 <= buffer.Length && NulFree(t)
      requires buffer[..offset + |t| + 1] == before + (t + [NUL])
      ensures Holds(before + t)
    {
      assert before + (t + [NUL]) == before + t + [NUL];
      assert buffer[..offset + |t|] == buffer[..offset + |t| + 1][..offset + |t|];
      assert buffer[offset + |t|] == buffer[..offset + |t| + 1][offset + |t|];
    }

    /** print_number, for the values %d covers. */
    method PrintNumber(x: real) returns (ok: bool)
      requires Valid() && x == IntOf(x) as real
      modifies this`buffer, this`offset, buffer
      ensures Valid() && Cap() == old(Cap()) && (buffer == old(buffer) || (!noalloc && fresh(buffer)))
      ensures ok <==> old(offset) + |IntText(IntOf(x))| + 2 <= Cap()
      ensures ok ==> Holds(old(Done()) + IntText(IntOf(x)))
    {
      var t := IntText(IntOf(x));
      IntTextNulFree(IntOf(x));
      ok := EmitText(t);
      if ok {
        offset := offset + |t|;
      }
    }

    /** print_value: it fails exactly when the text, a NUL and one byte more do not fit. */
    method PrintValue(v: Value) returns (ok: bool)
      requires Valid() && Printable(v) == true
      modifies this`buffer, this`offset, this`depth, buffer
      ensures Valid() && Cap() == old(Cap()) && (buffer == old(buffer) || (!noalloc && fresh(buffer)))
      ensures ok <==> old(offset) + |Text(v, old(depth), format)| + 2 <= Cap()
      ensures ok ==> depth == old(depth) && Holds(old(Done()) + Text(v, old(depth), format))
      decreases v, 0
    {
      match v
      case Null => ok := EmitText(NULL_TEXT);
      case False => ok := EmitText(FALSE_TEXT);
      case True => ok := EmitText(TRUE_TEXT);
      case Number(x) => ok := PrintNumber(x);
      case String(t) => ok := PrintString(t);
      case Array(items) => ok := PrintArray(items);
      case Object(members) => ok := PrintObject(members);
    }

    /** print_array. */
    method PrintArray(items: Items) returns (ok: bool)
      requires Valid() && PrintableItems(items) == true
      modifies this`buffer, this`offset, this`depth, buffer
      ensures Valid() && Cap() == old(Cap()) && (buffer == old(buffer) || (!noalloc && fresh(buffer)))
      ensures ok <==> old(offset) + |ArrayText(items, old(depth), format)| + 2 <= Cap()
      ensures ok ==> depth == old(depth) && Holds(old(Done()) + ArrayText(items, old(depth), format))
      decreases items, 3
    {
      ghost var before, t := Done(), ItemsText(items, depth + 1, format);
      ArrayInParts(items, depth, format, t);
      ok := Append([OPEN_BRACKET], 1);
      if !ok {
        return;
      }
      ok := PrintRest(items, before, t);
    }

    /** The items, one level deeper, and the closing bracket. */
    method PrintRest(items: Items, ghost before: seq<byte>, ghost t: seq<byte>) returns (ok: bool)
      requires Valid() && PrintableItems(items) == true
      requires Done() == before + [OPEN_BRACKET] && t == ItemsText(items, depth + 1, format)
      modifies this`buffer, this`offset, this`depth, buffer
      ensures Valid() && Cap() == old(Cap()) && (buffer == old(buffer) || (!noalloc && fresh(buffer)))
      ensures ok <==> |before| + |[OPEN_BRACKET] + t + [CLOSE_BRACKET]| + 2 <= Cap()
      ensures ok ==> depth == old(depth) && Holds(before + ([OPEN_BRACKET] + t + [CLOSE_BRACKET]))
      decreases items, 2
    {
      depth := depth + 1;
      ok := PrintItems(items);
      if !ok {
        return;
      }
      depth := depth - 1;
      ok := PrintLast(before, [OPEN_BRACKET], t, [CLOSE_BRACKET]);
    }

    /** The last part of an array or object is stored, and the cursor stays before it. */
    method PrintLast(ghost before: seq<byte>, ghost opening: seq<byte>, ghost t: seq<byte>, closing: seq<byte>)
      returns (ok: bool)
      requires Valid() && Done() == before + opening + t && NulFree(closing)
      modifies this`buffer, buffer
      ensures Valid() && Cap() == old(Cap()) && (buffer == old(buffer) || (!noalloc && fresh(buffer)))
      ensures ok <==> |before| + |opening + t + closing| + 2 <= Cap()
      ensures ok ==> Holds(before + (opening + t + closing))
    {
      ok := EmitText(closing);
      JoinedFour(before, opening, t, closing);
    }

    /** The loop of print_array. */
    method PrintItems(items: Items) returns (ok: bool)
      requires Valid() && PrintableItems(items) == true
      modifies this`buffer, this`offset, this`depth, buffer
      ensures Valid() && Cap() == old(Cap()) && (buffer == old(buffer) || (!noalloc && fresh(buffer)))
      ensures ok ==> depth == old(depth) && Done() == old(Done()) + ItemsText(items, depth, format)
      ensures !ok ==> old(offset) + |ItemsText(items, old(depth), format)| + 3 > Cap()
      decreases items, 1
    {
      ghost var before, whole := Done(), ItemsText(items, depth, format);
      var rest := items;
      while rest.Item?
        invariant Valid() && Cap() == old(Cap()) && (buffer == old(buffer) || (!noalloc && fresh(buffer)))
        invariant depth == old(depth)
        invariant PrintableItems(rest) == true && (rest == items || rest < items)
        invariant Done() + ItemsText(rest, depth, format) == before + whole
        decreases rest
      {
        ghost var done, item, more := Done(), ItemText(rest, depth, format), ItemsText(rest.tail, depth, format);
        ok := PrintItem(rest);
        if !ok {
          return;
        }
        Joined(done, item, more);
        rest := rest.tail;
      }
      JoinedNone(Done());
      ok := true;
    }

    /** One turn of that loop. */
    method PrintItem(items: Items) returns (ok: bool)
      requires Valid() && items.Item? && Printable(items.head) == true
      modifies this`buffer, this`offset, this`depth, buffer
      ensures Valid() && Cap() == old(Cap()) && (buffer == old(buffer) || (!noalloc && fresh(buffer)))
      ensures ok ==> depth == old(depth) && Done() == old(Done()) + ItemText(items, depth, format)
      ensures !ok ==> old(offset) + |ItemText(items, old(depth), format)| + 2 > Cap()
      decreases items, 0
    {
      ghost var before, t := Done(), Text(items.head, depth, format);
      ok := PrintValue(items.head);
      if !ok {
        return;
      }
      UpdateOffset(before + t);
      if items.tail.Item? {
        var comma := if format then [COMMA, SPACE] else [COMMA];
        ok := EmitText(comma);
        if ok {
          offset := offset + |comma|;
          assert buffer[..offset] == before + t + comma;
          Joined(before, t, comma);
        }
      } else {
        JoinedNone(t);
      }
    }

    /** print_object. */
    method PrintObject(members: Members) returns (ok: bool)
      requires Valid() && PrintableMembers(members) == true
      modifies this`buffer, this`offset, this`depth, buffer
      ensures Valid() && Cap() == old(Cap()) && (buffer == old(buffer) || (!noalloc && fresh(buffer)))
      ensures ok <==> old(offset) + |ObjectText(members, old(depth), format)| + 2 <= Cap()
      ensures ok ==> depth == old(depth) && Holds(old(Done()) + ObjectText(members, old(depth), format))
      decreases members, 3
    {
      ghost var before, t := Done(), MembersText(members, depth + 1, format);
      ObjectInParts(members, depth, format, t);
      ok := PrintOpening();
      if !ok {
        return;
      }
      ok := PrintInside(members, before, Opening(format), t);
    }

    /** The members, one level deeper, and the closing brace. */
    method PrintInside(members: Members, ghost before: seq<byte>, ghost opening: seq<byte>, ghost t: seq<byte>)
      returns (ok: bool)
      requires Valid() && PrintableMembers(members) == true
      requires Done() == before + opening && t == MembersText(members, depth + 1, format)
      modifies this`buffer, this`offset, this`depth, buffer
      ensures Valid() && Cap() == old(Cap()) && (buffer == old(buffer) || (!noalloc && fresh(buffer)))
      ensures ok <==>
                |before| + |opening + t + ((if format then Tabs(old(depth)) else []) + [CLOSE_BRACE])| + 2 <= Cap()
      ensures ok ==> depth == old(depth)
      ensures ok ==> Holds(before + (opening + t + ((if format then Tabs(depth) else []) + [CLOSE_BRACE])))
      decreases members, 2
    {
      depth := depth + 1;
      ok := PrintMembers(members);
      if !ok {
        return;
      }
      depth := depth - 1;
      ok := PrintLast(before, opening, t, (if format then Tabs(depth) else []) + [CLOSE_BRACE]);
    }

    method PrintOpening() returns (ok: bool)
      requires Valid()
      modifies this`buffer, this`offset, buffer
      ensures Valid() && Cap() == old(Cap()) && (buffer == old(buffer) || (!noalloc && fresh(buffer)))
      ensures ok <==> old(offset) + |Opening(format)| + 2 <= Cap()
      ensures ok ==> Done() == old(Done()) + Opening(format)
    {
      var opening := if format then [OPEN_BRACE, NEWLINE] else [OPEN_BRACE];
      ok := Append(opening, |opening| + 1);
    }

    /** The loop of print_object. */
    method PrintMembers(members: Members) returns (ok: bool)
      requires Valid() && PrintableMembers(members) == true
      modifies this`buffer, this`offset, this`depth, buffer
      ensures Valid() && Cap() == old(Cap()) && (buffer == old(buffer) || (!noalloc && fresh(buffer)))
      ensures ok ==> depth == old(depth) && Done() == old(Done()) + MembersText(members, depth, format)
      ensures !ok ==> old(offset) + |MembersText(members, old(depth), format)| + 3 > Cap()
      decreases members, 1
    {
      ghost var before, whole := Done(), MembersText(members, depth, format);
      var rest := members;
      while rest.Member?
        invariant Valid() && Cap() == old(Cap()) && (buffer == old(buffer) || (!noalloc && fresh(buffer)))
        invariant depth == old(depth)
        invariant PrintableMembers(rest) == true && (rest == members || rest < members)
        invariant Done() + MembersText(rest, depth, format) == before + whole
        decreases rest
      {
        ghost var done, member, more := Done(), MemberText(rest, depth, format), MembersText(rest.rest, depth, format);
        ok := PrintMember(rest);
        if !ok {
          return;
        }
        Joined(done, member, more);
        rest := rest.rest;
      }
      JoinedNone(Done());
      ok := true;
    }

    /** One turn of that loop. */
    method PrintMember(members: Members) returns (ok: bool)
      requires Valid() && members.Member? && NulFree(members.key) && Printable(members.value) == true
      modifies this`buffer, this`offset, this`depth, buffer
      ensures Valid() && Cap() == old(Cap()) && (buffer == old(buffer) || (!noalloc && fresh(buffer)))
      ensures ok ==> depth == old(depth) && Done() == old(Done()) + MemberText(members, depth, format)
      ensures !ok ==> old(offset) + |MemberText(members, old(depth), format)| + 2 > Cap()
      decreases members, 0
    {
      ghost var before := Done();
      ghost var k, t := KeyText(members.key, depth, format), ValueText(members, depth, format);
      ok := PrintKey(members.key);
      if !ok {
        return;
      }
      ok := PrintMemberValue(members);
      Joined(before, k, t);
    }

    /** The indentation, the name and the colon. */
    method PrintKey(key: seq<byte>) returns (ok: bool)
      requires Valid() && NulFree(key)
      modifies this`buffer, this`offset, buffer
      ensures Valid() && Cap() == old(Cap()) && (buffer == old(buffer) || (!noalloc && fresh(buffer)))
      ensures ok ==> Done() == old(Done()) + KeyText(key, depth, format)
      ensures !ok ==> old(offset) + |KeyText(key, depth, format)| + 1 > Cap()
    {
      ghost var before, indent, q := Done(), Indent(depth, format), Quoted(key);
      ok := PrintIndent();
      if !ok {
        return;
      }
      ok := PrintString(key);
      if !ok {
        return;
      }
      UpdateOffset(before + indent + q);
      var colon := if format then [COLON, TAB] else [COLON];
      ok := Append(colon, |colon|);
      JoinedFour(before, indent, q, colon);
    }

    /** The tabs before a member, when the text is formatted. */
    method PrintIndent() returns (ok: bool)
      requires Valid()
      modifies this`buffer, this`offset, buffer
      ensures Valid() && Cap() == old(Cap()) && (buffer == old(buffer) || (!noalloc && fresh(buffer)))
      ensures ok ==> Done() == old(Done()) + Indent(depth, format)
      ensures !ok ==> old(offset) + |Indent(depth, format)| + 1 > Cap()
    {
      ok := true;
      if format {
        ok := Append(Tabs(depth), depth);
      } else {
        JoinedNone(Done());
      }
    }

    /** The value, the comma if another member follows, and the end of the line. */
    method PrintMemberValue(members: Members) returns (ok: bool)
      requires Valid() && members.Member? && Printable(members.value) == true
      modifies this`buffer, this`offset, this`depth, buffer
      ensures Valid() && Cap() == old(Cap()) && (buffer == old(buffer) || (!noalloc && fresh(buffer)))
      ensures ok ==> depth == old(depth) && Done() == old(Done()) + ValueText(members, depth, format)
      ensures !ok ==> old(offset) + |ValueText(members, old(depth), format)| + 2 > Cap()
      decreases members.value, 1
    {
      ghost var before, t := Done(), Text(members.value, depth, format);
      ok := PrintValue(members.value);
      if !ok {
        return;
      }
      UpdateOffset(before + t);
      var end := (if members.rest.Member? then [COMMA] else []) + (if format then [NEWLINE] else []);
      ok := EmitText(end);
      if ok {
        offset := offset + |end|;
        Joined(before, t, end);
      }
    }
  }

  lemma IntTextNulFree(n: int)
    ensures NulFree(IntText(n))
  {
  }

  /** The function print: a buffer of 256 bytes that grows; cJSON_Print and cJSON_PrintUnformatted. */
  method Print(v: Value, format: bool) returns (ok: bool, text: seq<byte>)
    requires Printable(v)
    ensures ok <==> |Text(v, 0, format)| + 2 <= INT_MAX
    ensures ok ==> text == Text(v, 0, format) + [NUL]
  {
    var buffer := new byte[256];
    var p := new PrintBuffer(buffer, false, format);
    text := [];
    ok := p.PrintValue(v);
    if ok {
      ghost var t := Text(v, 0, format);
      assert p.Holds([] + t);
      assert [] + t == t;
      p.UpdateOffset(t);
      text := p.buffer[..p.offset + 1];
    }
  }

  /** cJSON_PrintPreallocated: it fails unless one byte more is there than the text and its NUL take. */
  method PrintPreallocated(v: Value, buffer: array<byte>, format: bool) returns (ok: bool)
    requires Printable(v) && buffer.Length <= INT_MAX
    modifies buffer
    ensures ok <==> |Text(v, 0, format)| + 2 <= buffer.Length
    ensures ok ==> buffer[..|Text(v, 0, format)| + 1] == Text(v, 0, format) + [NUL]
  {
    var p := new PrintBuffer(buffer, true, format);
    ok := p.PrintValue(v);
    if ok {
      ghost var t := Text(v, 0, format);
      assert p.Holds([] + t);
      assert [] + t == t;
      assert p.buffer[..|t| + 1] == p.buffer[..|t|] + [p.buffer[|t|]];
    }
  }
}
