/** Key patterns and what they declare: the one key a literal pattern stands for, or
    else the pattern's text. */
module KeyItems {
  import opened Common

  // Exact keys

  predicate WordCharacter(c: char) {
    '0' <= c <= '9' || 'a' <= c <= 'z' || 'A' <= c <= 'Z' || c == '_'
  }

  /** Neither zero nor past ASCII. */
  predicate Ascii(c: char) {
    0 < c as int < 0x80
  }

  predicate Operator(c: char) {
    c in ".+*?()|[]{}^$"
  }

  /** The key a literal pattern matches. */
  function Exact(pattern: string): Option<string> {
    if pattern == "" then Some("")
    else if !Ascii(pattern[0]) then None
    else if pattern[0] == '\\' then
      if |pattern| == 1 || !Ascii(pattern[1]) || WordCharacter(pattern[1]) then None
      else Prepended(pattern[1], Exact(pattern[2..]))
    else if Operator(pattern[0]) then None
    else Prepended(pattern[0], Exact(pattern[1..]))
  }

  function Prepended(c: char, rest: Option<string>): Option<string> {
    if rest.None? then None else Some([c] + rest.value)
  }

  /** The decoding from a place on, after what was decoded before it. */
  function ExactFrom(before: string, pattern: string): Option<string> {
    var rest := Exact(pattern);
    if rest.None? then None else Some(before + rest.value)
  }

  lemma ExactStep(before: string, pattern: string, c: char, taken: nat)
    requires taken <= |pattern| && Exact(pattern) == Prepended(c, Exact(pattern[taken..]))
    ensures ExactFrom(before, pattern) == ExactFrom(before + [c], pattern[taken..])
  {
    hide Exact;
    if Exact(pattern[taken..]).Some? {
      var rest := Exact(pattern[taken..]).value;
      assert before + ([c] + rest) == before + [c] + rest;
    }
  }

  method DecodeExact(pattern: string) returns (key: Option<string>)
    ensures key == Exact(pattern)
  {
    var decoded: string := "";
    var index: nat := 0;
    assert pattern[0..] == pattern;
    assert Exact(pattern).Some? ==> "" + Exact(pattern).value == Exact(pattern).value;
    while index < |pattern|
      invariant index <= |pattern|
      invariant Exact(pattern) == ExactFrom(decoded, pattern[index..])
    {
      var character := pattern[index];
      var rest := pattern[index..];
      if !Ascii(character) {
        return None;
      }
      if character == '\\' {
        index := index + 1;
        if index == |pattern| {
          return None;
        }
        var escaped := pattern[index];
        assert rest[1] == escaped;
        if !Ascii(escaped) || WordCharacter(escaped) {
          return None;
        }
        ExactStep(decoded, rest, escaped, 2);
        assert rest[2..] == pattern[index + 1..];
        decoded := decoded + [escaped];
      } else if Operator(character) {
        return None;
      } else {
        ExactStep(decoded, rest, character, 1);
        assert rest[1..] == pattern[index + 1..];
        decoded := decoded + [character];
      }
      index := index + 1;
    }
    assert decoded + "" == decoded;
    return Some(decoded);
  }

  /** A character by itself is a literal pattern, of itself, unless RE2 reads it otherwise. */
  lemma OneCharacter(c: char)
    ensures Exact([c]) == if 0 < c as int < 0x80 && c != '\\' && c != '.' && c != '+' && c != '*' && c != '?' && c != '(' &&
                             c != ')' && c != '|' && c != '[' && c != ']' && c != '{' && c != '}' && c != '^' && c != '$'
                          then Some([c]) else None
  {
    assert [c][1..] == "";
    assert [c] + "" == [c];
  }

  /** One with a backslash before it is, unless it is a letter, a digit or '_'. */
  lemma OneEscaped(c: char)
    ensures Exact(['\\', c]) ==
      if 0 < c as int < 0x80 && !('0' <= c <= '9') && !('a' <= c <= 'z') && !('A' <= c <= 'Z') && c != '_' then Some([c]) else None
    ensures Exact(['\\']) == None
  {
    assert ['\\', c][2..] == "";
    assert [c] + "" == [c];
  }

  /** And a pattern is literal exactly if it is made of such parts, its key of theirs. */
  lemma {:induction false} PartByPart(part: string, rest: string)
    requires Exact(part).Some?
    ensures Exact(part + rest) == if Exact(rest).Some? then Some(Exact(part).value + Exact(rest).value) else None
  {
    hide WordCharacter, Ascii, Operator;
    if part == "" {
      assert part + rest == rest;
      assert Exact(rest).Some? ==> "" + Exact(rest).value == Exact(rest).value;
    } else {
      var taken := if part[0] == '\\' then 2 else 1;
      assert (part + rest)[taken..] == part[taken..] + rest;
      PartByPart(part[taken..], rest);
      if Exact(rest).Some? {
        var c := if part[0] == '\\' then part[1] else part[0];
        assert [c] + (Exact(part[taken..]).value + Exact(rest).value) == ([c] + Exact(part[taken..]).value) + Exact(rest).value;
      }
    }
  }

  lemma OnlyOfParts(pattern: string)
    requires pattern != "" && Exact(pattern).Some?
    ensures if pattern[0] == '\\' then |pattern| > 1 && Exact(pattern[..2]).Some? && Exact(pattern[2..]).Some?
            else Exact(pattern[..1]).Some? && Exact(pattern[1..]).Some?
  {
    if pattern[0] == '\\' {
      OneEscaped(pattern[1]);
      assert pattern[..2] == ['\\', pattern[1]];
    } else {
      OneCharacter(pattern[0]);
      assert pattern[..1] == [pattern[0]];
    }
  }

  predicate AsciiKey(key: string) {
    forall i :: 0 <= i < |key| ==> Ascii(key[i])
  }

  /** A key as a pattern for it alone: a backslash before each character that is
      not a word character. */
  function Escaped(key: string): string {
    if key == "" then ""
    else (if WordCharacter(key[0]) then [key[0]] else ['\\', key[0]]) + Escaped(key[1..])
  }

  lemma {:induction false} ExactOfEscaped(key: string)
    requires AsciiKey(key)
    ensures Exact(Escaped(key)) == Some(key)
  {
    if key != "" {
      var rest := Escaped(key[1..]);
      ExactOfEscaped(key[1..]);
      if WordCharacter(key[0]) {
        assert Escaped(key)[1..] == rest;
      } else {
        assert Escaped(key)[2..] == rest;
      }
      assert [key[0]] + key[1..] == key;
    }
  }

  /** Only ASCII keys have an exact pattern: every other one is left to RE2. */
  lemma {:induction false} ExactIsAscii(pattern: string)
    ensures Exact(pattern).Some? ==> AsciiKey(Exact(pattern).value)
  {
    if pattern != "" {
      ExactIsAscii(pattern[1..]);
      if |pattern| > 1 {
        ExactIsAscii(pattern[2..]);
      }
    }
  }

  lemma ExactKeysAreAscii(key: string)
    ensures AsciiKey(key) <==> exists pattern :: Exact(pattern) == Some(key)
  {
    if AsciiKey(key) {
      ExactOfEscaped(key);
    }
    if pattern :| Exact(pattern) == Some(key) {
      ExactIsAscii(pattern);
    }
  }

  // What filters declare

  type Owner = nat
  type MessageType = nat

  datatype Filter = Filter(messageType: MessageType, patterns: seq<string>)

  /** What a pattern stands for in the index. */
  datatype Item = Key(key: string) | Text(pattern: string)

  function ItemOf(pattern: string): Item {
    var key := Exact(pattern);
    if key.Some? then Key(key.value) else Text(pattern)
  }

  function ItemTimes(patterns: seq<string>, item: Item): nat {
    if patterns == [] then 0
    else ItemTimes(patterns[1..], item) + if ItemOf(patterns[0]) == item then 1 else 0
  }

  /** How many times filters name an item for a type. */
  function Times(filters: seq<Filter>, t: MessageType, item: Item): nat {
    if filters == [] then 0
    else Times(filters[1..], t, item) + if filters[0].messageType == t then ItemTimes(filters[0].patterns, item) else 0
  }

  /** How many filters are for a type. */
  function Uses(filters: seq<Filter>, t: MessageType): nat {
    if filters == [] then 0 else Uses(filters[1..], t) + if filters[0].messageType == t then 1 else 0
  }

  function TotalUses(held: seq<seq<Filter>>, t: MessageType): nat {
    if held == [] then 0 else TotalUses(held[1..], t) + Uses(held[0], t)
  }

  lemma {:induction false} ItemTimesNext(patterns: seq<string>, pattern: string, item: Item)
    ensures ItemTimes(patterns + [pattern], item) == ItemTimes(patterns, item) + if ItemOf(pattern) == item then 1 else 0
  {
    var longer := patterns + [pattern];
    if patterns == [] {
      assert longer[1..] == [];
    } else {
      assert longer[1..] == patterns[1..] + [pattern];
      ItemTimesNext(patterns[1..], pattern, item);
    }
  }

  lemma {:induction false} ItemTimesSome(patterns: seq<string>, item: Item)
    ensures ItemTimes(patterns, item) > 0 <==> exists i :: 0 <= i < |patterns| && ItemOf(patterns[i]) == item
  {
    if patterns != [] {
      ItemTimesSome(patterns[1..], item);
      if i :| 0 <= i < |patterns| && ItemOf(patterns[i]) == item {
        if i > 0 {
          assert patterns[1..][i - 1] == patterns[i];
        }
      }
      if i :| 0 <= i < |patterns[1..]| && ItemOf(patterns[1..][i]) == item {
        assert patterns[i + 1] == patterns[1..][i];
      }
    }
  }

  lemma {:induction false} TimesConcat(filters: seq<Filter>, more: seq<Filter>, t: MessageType, item: Item)
    ensures Times(filters + more, t, item) == Times(filters, t, item) + Times(more, t, item)
  {
    if filters == [] {
      assert filters + more == more;
    } else {
      assert (filters + more)[1..] == filters[1..] + more;
      TimesConcat(filters[1..], more, t, item);
    }
  }

  lemma {:induction false} UsesConcat(filters: seq<Filter>, more: seq<Filter>, t: MessageType)
    ensures Uses(filters + more, t) == Uses(filters, t) + Uses(more, t)
  {
    if filters == [] {
      assert filters + more == more;
    } else {
      assert (filters + more)[1..] == filters[1..] + more;
      UsesConcat(filters[1..], more, t);
    }
  }

  lemma {:induction false} NoUseNoTimes(filters: seq<Filter>, t: MessageType, item: Item)
    requires Uses(filters, t) == 0
    ensures Times(filters, t, item) == 0
  {
    if filters != [] {
      NoUseNoTimes(filters[1..], t, item);
    }
  }

  lemma {:induction false} TotalUsesChanged(held: seq<seq<Filter>>, owner: Owner, filters: seq<Filter>, t: MessageType)
    requires owner < |held|
    ensures TotalUses(held[owner := filters], t) + Uses(held[owner], t) == TotalUses(held, t) + Uses(filters, t)
  {
    if owner > 0 {
      TotalUsesChanged(held[1..], owner - 1, filters, t);
      assert held[owner := filters][1..] == held[1..][owner - 1 := filters];
    } else {
      assert held[owner := filters][1..] == held[1..];
    }
  }

  lemma {:induction false} TotalUsesOf(held: seq<seq<Filter>>, owner: Owner, t: MessageType)
    requires owner < |held|
    ensures Uses(held[owner], t) <= TotalUses(held, t)
  {
    if owner > 0 {
      TotalUsesOf(held[1..], owner - 1, t);
    }
  }

  lemma {:induction false} TotalUsesMore(held: seq<seq<Filter>>, t: MessageType)
    ensures TotalUses(held + [[]], t) == TotalUses(held, t)
  {
    if held == [] {
      assert (held + [[]])[1..] == [];
    } else {
      assert (held + [[]])[1..] == held[1..] + [[]];
      TotalUsesMore(held[1..], t);
    }
  }
}
