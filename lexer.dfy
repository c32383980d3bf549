/**
 * The inline part of the lexer header: borrowed string spans, character
 * classes and newline widths, the diagnostic collector and the lexer cursor.
 */
module Lexer {
  import opened Wrappers

  /* ----------------------------------------------------------------------- */
  /* C strings */

  /** The character at index `i` of a NUL-terminated C string whose visible
      characters are `s`: reading at or past the end yields the terminator. */
  function CharAt(s: seq<char>, i: nat): (c: char)
    ensures i < |s| ==> c == s[i]
    ensures i >= |s| ==> c == '\0'
  {
    if i < |s| then s[i] else '\0'
  }

  /** The `len` characters of `buf` starting at index `start`. */
  function Slice(buf: seq<char>, start: nat, len: nat): (r: seq<char>)
    requires start + len <= |buf|
    ensures |r| == len
    ensures forall k :: 0 <= k < len ==> r[k] == buf[start + k]
  {
    buf[start..start + len]
  }

  /** Two adjacent slices of one buffer make up the slice that spans both. */
  lemma SliceAdjacent(buf: seq<char>, start: nat, len1: nat, len2: nat)
    requires start + len1 + len2 <= |buf|
    ensures Slice(buf, start, len1) + Slice(buf, start + len1, len2) == Slice(buf, start, len1 + len2)
  {
  }

  /* ----------------------------------------------------------------------- */
  /* String reference: a segment of an already existing character buffer */

  /** A borrowed span. `start` is the index of its first character in the
      buffer it borrows from (`None` is the NULL pointer) and `len` the
      number of characters it covers. */
  class StrRef {
    var start: Option<nat>
    var len: nat

    /** The span lies inside `buf` (a NULL span lies inside every buffer). */
    ghost predicate Within(buf: seq<char>)
      reads this
    {
      start.Some? ==> start.value + len <= |buf|
    }

    /** The characters the span covers; a NULL span covers none. */
    ghost function Text(buf: seq<char>): (t: seq<char>)
      reads this
      requires Within(buf)
      ensures start.Some? ==> |t| == len
    {
      if start.None? then [] else Slice(buf, start.value, len)
    }

    /** strref_clear: the span becomes NULL with length 0, hence empty. */
    method Clear()
      modifies this
      ensures start == None && len == 0
      ensures forall buf :: IsEmpty(buf)
    {
      start := None;
      len := 0;
    }

    /** strref_set: the span takes the given origin and length. */
    method Set(origin: Option<nat>, n: nat)
      modifies this
      ensures start == origin && len == n
    {
      start := origin;
      len := n;
    }

    /** strref_copy: the span takes the origin and length of `src`
        (which may be this very span). */
    method Copy(src: StrRef)
      modifies this
      ensures start == old(src.start) && len == old(src.len)
    {
      start, len := src.start, src.len;
    }

    /** strref_add: a NULL span becomes a copy of `t`; otherwise the span
        keeps its origin and grows by `t`'s length; no character moves.
        When both spans lie in `buf` and `t` starts right where this span
        ended, the grown span covers this span's text followed by `t`'s. */
    method Add(t: StrRef, ghost buf: seq<char>)
      modifies this
      ensures old(start).None? ==> start == old(t.start) && len == old(t.len)
      ensures old(start).Some? ==> start == old(start) && len == old(len) + old(t.len)
      ensures old(start).Some? && old(Within(buf)) && old(t.Within(buf)) &&
              old(t.start) == Some(old(start).value + old(len)) ==>
                Within(buf) && Text(buf) == old(Text(buf)) + old(t.Text(buf))
    {
      if start.None? {
        Copy(t);
      } else {
        ghost var adjacent := Within(buf) && t.Within(buf) && t.start == Some(start.value + len);
        ghost var len0, len1 := len, t.len;
        len := len + t.len;
        if adjacent {
          SliceAdjacent(buf, start.value, len0, len1);
        }
      }
    }

    /** strref_isempty: a span is empty when it is NULL, has length 0, or
        begins with the NUL terminator; for a span inside its buffer, that
        is exactly when its text is empty or starts with NUL. */
    function IsEmpty(buf: seq<char>): (r: bool)
      reads this
      requires start.Some? ==> start.value <= |buf|
      ensures r <==> start.None? || len == 0 || CharAt(buf, start.value) == '\0'
      ensures Within(buf) ==> (r <==> Text(buf) == [] || Text(buf)[0] == '\0')
    {
      if start.None? || len == 0 then true
      else if CharAt(buf, start.value) == '\0' then true
      else false
    }
  }

  /* ----------------------------------------------------------------------- */
  /* Character classes */

  /** is_newline: carriage return or line feed; never a space or a tab. */
  function IsNewline(ch: char): (r: bool)
    ensures r ==> !IsSpaceOrTab(ch)
  {
    ch == '\r' || ch == '\n'
  }

  /** is_space_or_tab: a blank within a line, never a newline character
      nor the string terminator. */
  function IsSpaceOrTab(ch: char): (r: bool)
    ensures r ==> ch != '\r' && ch != '\n' && ch != '\0'
  {
    ch == ' ' || ch == '\t'
  }

  /** is_whitespace: exactly the spaces, tabs and newline characters. */
  function IsWhitespace(ch: char): (r: bool)
    ensures r <==> IsSpaceOrTab(ch) || IsNewline(ch)
  {
    ch == ' ' || ch == '\r' || ch == '\t' || ch == '\n'
  }

  /** is_newline_pair: two different newline characters, "\r\n" or "\n\r". */
  function IsNewlinePair(ch1: char, ch2: char): (r: bool)
    ensures r <==> IsNewline(ch1) && IsNewline(ch2) && ch1 != ch2
  {
    (ch1 == '\r' && ch2 == '\n') || (ch1 == '\n' && ch2 == '\r')
  }

  /** newline_size: the width of the newline unit at the start of the C
      string `s` — 2 for "\r\n" or "\n\r", 1 for a lone '\r' or '\n',
      0 when `s` does not start with a newline. */
  function NewlineSize(s: seq<char>): (r: nat)
    ensures r <= 2
    ensures r > 0 <==> IsNewline(CharAt(s, 0))
    ensures r == 2 <==> IsNewlinePair(CharAt(s, 0), CharAt(s, 1))
    ensures r == 1 <==> IsNewline(CharAt(s, 0)) && !IsNewlinePair(CharAt(s, 0), CharAt(s, 1))
  {
    var head := [CharAt(s, 0), CharAt(s, 1)];
    if head == "\r\n" || head == "\n\r" then 2
    else if CharAt(s, 0) == '\r' || CharAt(s, 0) == '\n' then 1
    else 0
  }

  /* ----------------------------------------------------------------------- */
  /* Diagnostics */

  newtype u32 = x: int | 0 <= x < 0x1_0000_0000

  const LEVEL_ERROR: int := 0
  const LEVEL_WARNING: int := 1

  /** One diagnostic: its message, the file it is about, its position and
      its severity level. */
  datatype ErrorItem = ErrorItem(error: string, file: string, row: u32, column: u32, level: int)

  /** The number of items of `items` whose level is `level`. */
  function CountLevel(items: seq<ErrorItem>, level: int): (n: nat)
    ensures n <= |items|
  {
    if items == [] then 0
    else CountLevel(items[..|items| - 1], level) + (if items[|items| - 1].level == level then 1 else 0)
  }

  /** Appending one item adds one to the count of its own level only. */
  lemma CountLevelAppend(items: seq<ErrorItem>, item: ErrorItem, level: int)
    ensures CountLevel(items + [item], level) ==
            CountLevel(items, level) + (if item.level == level then 1 else 0)
  {
  }

  /** Some item has the level exactly when the count of that level is positive. */
  lemma {:induction false} CountLevelPositive(items: seq<ErrorItem>, level: int)
    ensures CountLevel(items, level) > 0 <==> exists i :: 0 <= i < |items| && items[i].level == level
  {
    if items != [] {
      var front := items[..|items| - 1];
      CountLevelPositive(front, level);
      if exists i :: 0 <= i < |front| && front[i].level == level {
        var i :| 0 <= i < |front| && front[i].level == level;
        assert items[i].level == level;
      }
      if exists i :: 0 <= i < |items| && items[i].level == level {
        var i :| 0 <= i < |items| && items[i].level == level;
        if i < |front| {
          assert front[i].level == level;
        }
      }
    }
  }

  /** Two distinct levels never count the same item twice. */
  lemma {:induction false} CountLevelDisjoint(items: seq<ErrorItem>, a: int, b: int)
    requires a != b
    ensures CountLevel(items, a) + CountLevel(items, b) <= |items|
  {
    if items != [] {
      CountLevelDisjoint(items[..|items| - 1], a, b);
    }
  }

  /** error_data: the growable list of diagnostics of one parse. */
  class ErrorData {
    var errors: seq<ErrorItem>

    /** error_data_init: no diagnostics. */
    method Init()
      modifies this
      ensures errors == []
    {
      errors := [];
    }

    /** error_data_add: appends one item. How its message is formatted is
        not part of this model. */
    method Add(file: string, row: u32, column: u32, msg: string, level: int)
      modifies this
      ensures errors == old(errors) + [ErrorItem(msg, file, row, column, level)]
      ensures CountLevel(errors, level) == CountLevel(old(errors), level) + 1
    {
      CountLevelAppend(errors, ErrorItem(msg, file, row, column, level), level);
      errors := errors + [ErrorItem(msg, file, row, column, level)];
    }

    /** error_data_item: the item at index `idx`, which must exist. */
    method Item(idx: nat) returns (item: ErrorItem)
      requires idx < |errors|
      ensures item == errors[idx]
    {
      item := errors[idx];
    }

    /** error_data_type_count: the number of items at level `t`. */
    method TypeCount(t: int) returns (count: nat)
      ensures count == CountLevel(errors, t)
      ensures count <= |errors|
    {
      count := 0;
      var i := 0;
      while i < |errors|
        invariant 0 <= i <= |errors|
        invariant count == CountLevel(errors[..i], t)
      {
        assert errors[..i + 1][..i] == errors[..i];
        if errors[i].level == t {
          count := count + 1;
        }
        i := i + 1;
      }
      assert errors[..i] == errors;
    }

    /** error_data_has_errors: whether some item has the error level,
        that is, whether the count of error-level items is positive. */
    method HasErrors() returns (r: bool)
      ensures r <==> exists i :: 0 <= i < |errors| && errors[i].level == LEVEL_ERROR
      ensures r <==> CountLevel(errors, LEVEL_ERROR) > 0
    {
      CountLevelPositive(errors, LEVEL_ERROR);
      var i := 0;
      while i < |errors|
        invariant 0 <= i <= |errors|
        invariant forall j :: 0 <= j < i ==> errors[j].level != LEVEL_ERROR
      {
        if errors[i].level == LEVEL_ERROR {
          return true;
        }
        i := i + 1;
      }
      return false;
    }
  }

  /* ----------------------------------------------------------------------- */
  /* Lexer cursor */

  /** lexer: an owned copy of the source text and a cursor into it; both
      NULL before a text is started. */
  class Lexer {
    var text: array?<char>
    var offset: Option<nat>

    /** The cursor is NULL exactly when the text is, and otherwise points
        into the text (at most one past its last character). */
    ghost predicate Valid()
      reads this
    {
      (text == null <==> offset.None?) &&
      (offset.Some? ==> text != null && offset.value <= text.Length)
    }

    /** lexer_init: text and cursor are NULL. */
    method Init()
      modifies this
      ensures Valid()
      ensures text == null && offset == None
    {
      text := null;
      offset := None;
    }

    /** lexer_free: releases the text and leaves text and cursor NULL. */
    method Free()
      modifies this
      ensures Valid()
      ensures text == null && offset == None
    {
      Init();
    }

    /** lexer_start: the lexer owns a fresh copy of the C string `s`
        (with its terminator) and the cursor is at its first character. */
    method Start(s: seq<char>)
      requires '\0' !in s
      modifies this
      ensures Valid()
      ensures text != null && fresh(text) && text[..] == s + ['\0']
      ensures offset == Some(0)
    {
      Free();
      var copy := new char[|s| + 1](i requires 0 <= i <= |s| => if i < |s| then s[i] else '\0');
      text := copy;
      offset := Some(0);
      assert text[..] == s + ['\0'];
    }

    /** lexer_start_move: the lexer takes ownership of `buffer` itself (no
        copy) and the cursor is at its start, or NULL when `buffer` is. */
    method StartMove(buffer: array?<char>)
      modifies this
      ensures Valid()
      ensures text == buffer
      ensures offset == if buffer == null then None else Some(0)
    {
      Free();
      text := buffer;
      offset := if buffer == null then None else Some(0);
    }

    /** lexer_reset: the cursor returns to the start of the text; the text
        itself is unchanged. */
    method Reset()
      modifies this`offset
      ensures Valid()
      ensures text == old(text)
      ensures offset == if text == null then None else Some(0)
    {
      offset := if text == null then None else Some(0);
    }
  }
}
